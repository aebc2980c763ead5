// SPECIES layout: vtable slots, vtable entries and field indices under
// inheritance chains of any length.
module Species {
  import opened Options

  // A SPECIES declaration.
  datatype Decl = Decl(name: string, parent: Option<string>, fields: seq<string>, actions: seq<string>)

  // A JavaScript Map from method names to slots, with its insertion order.
  datatype SlotMap = SlotMap(order: seq<string>, idx: map<string, nat>)

  // speciesTypes entry; vtable lists the implementing species in slot order.
  datatype Info = Info(fields: seq<string>, fieldIndex: map<string, nat>, actions: seq<string>,
                       parent: Option<string>, slots: SlotMap, vtable: seq<string>)

  const VTABLE := "__vtable"

  // ── The layout of a chain, root first ──

  ghost function AddNew(order: seq<string>, actions: seq<string>): seq<string> {
    if actions == [] then order
    else
      var before := AddNew(order, actions[..|actions| - 1]);
      var a := actions[|actions| - 1];
      if a in before then before else before + [a]
  }

  // Method names by slot: inherited ones first, then new ones in declaration order.
  ghost function SlotNames(chain: seq<Decl>): seq<string> {
    if chain == [] then []
    else AddNew(SlotNames(chain[..|chain| - 1]), chain[|chain| - 1].actions)
  }

  ghost function Layout(chain: seq<Decl>): seq<string> {
    if chain == [] then [VTABLE] else Layout(chain[..|chain| - 1]) + chain[|chain| - 1].fields
  }

  // Later declarations of a field win.
  ghost function IndexOf(fields: seq<string>): map<string, nat> {
    if fields == [] then map[] else IndexOf(fields[..|fields| - 1])[fields[|fields| - 1] := |fields| - 1]
  }

  // The nearest species, from the end of the chain up, that defines the method.
  ghost function Definer(chain: seq<Decl>, m: string): Option<string> {
    if chain == [] then None
    else if m in chain[|chain| - 1].actions then Some(chain[|chain| - 1].name)
    else Definer(chain[..|chain| - 1], m)
  }

  ghost function Entry(chain: seq<Decl>, m: string): string
    requires chain != []
  {
    if Definer(chain, m).Some? then Definer(chain, m).value else chain[|chain| - 1].name
  }

  ghost function Vtable(chain: seq<Decl>): (v: seq<string>)
    requires chain != []
    ensures |v| == |SlotNames(chain)|
  {
    seq(|SlotNames(chain)|, i requires 0 <= i < |SlotNames(chain)| => Entry(chain, SlotNames(chain)[i]))
  }

  ghost predicate Distinct(s: seq<string>) {
    forall i, j :: 0 <= i < j < |s| ==> s[i] != s[j]
  }

  // The map sends the i-th inserted name to slot i.
  ghost predicate Numbered(m: SlotMap) {
    && Distinct(m.order)
    && (forall x :: x in m.idx <==> x in m.order)
    && (forall i :: 0 <= i < |m.order| ==> m.order[i] in m.idx && m.idx[m.order[i]] == i)
  }

  // ── Laws of the layout ──

  lemma {:induction false} AddNewLaws(order: seq<string>, actions: seq<string>)
    requires Distinct(order)
    ensures order <= AddNew(order, actions) && Distinct(AddNew(order, actions))
    ensures forall x :: x in AddNew(order, actions) <==> x in order || x in actions
  {
    if actions != [] {
      var last := |actions| - 1;
      AddNewLaws(order, actions[..last]);
      assert actions == actions[..last] + [actions[last]];
    }
  }

  // Slots are numbered without repetition.
  lemma {:induction false} SlotsDistinct(chain: seq<Decl>)
    ensures Distinct(SlotNames(chain))
  {
    if chain != [] {
      SlotsDistinct(chain[..|chain| - 1]);
      AddNewLaws(SlotNames(chain[..|chain| - 1]), chain[|chain| - 1].actions);
    }
  }

  // Every inherited method keeps its parent's slot, at any distance.
  lemma {:induction false} SlotsInherited(chain: seq<Decl>, k: nat)
    requires k <= |chain|
    ensures SlotNames(chain[..k]) <= SlotNames(chain)
    decreases |chain|
  {
    var last := |chain| - 1;
    if k == |chain| {
      assert chain[..k] == chain;
    } else {
      SlotsInherited(chain[..last], k);
      assert chain[..last][..k] == chain[..k];
      SlotsDistinct(chain[..last]);
      AddNewLaws(SlotNames(chain[..last]), chain[last].actions);
    }
  }

  ghost predicate Defines(chain: seq<Decl>, k: int, m: string) {
    0 <= k < |chain| && m in chain[k].actions
  }

  // The slots are exactly the methods some species of the chain defines.
  lemma {:induction false} SlotsCover(chain: seq<Decl>, m: string)
    ensures m in SlotNames(chain) <==> exists k :: Defines(chain, k, m)
  {
    if chain != [] {
      var last := |chain| - 1;
      SlotsCover(chain[..last], m);
      SlotsDistinct(chain[..last]);
      AddNewLaws(SlotNames(chain[..last]), chain[last].actions);
      if m in SlotNames(chain[..last]) {
        var k :| Defines(chain[..last], k, m);
        assert Defines(chain, k, m);
      }
      if m in chain[last].actions { assert Defines(chain, last, m); }
      forall k | Defines(chain, k, m) && k < last
        ensures Defines(chain[..last], k, m)
      {
      }
    }
  }

  // The definer is the last species of the chain that defines the method.
  lemma {:induction false} DefinerIsLast(chain: seq<Decl>, m: string, k: nat)
    requires Defines(chain, k, m) && forall j :: k < j < |chain| ==> !Defines(chain, j, m)
    ensures Definer(chain, m) == Some(chain[k].name)
  {
    var last := |chain| - 1;
    if k < last {
      assert !Defines(chain, last, m);
      forall j | k < j < last
        ensures !Defines(chain[..last], j, m)
      {
        assert !Defines(chain, j, m);
      }
      DefinerIsLast(chain[..last], m, k);
    }
  }

  // A call through an ancestor's layout reaches the most derived override: the
  // slot the ancestor's species gives the method holds, in the vtable of any
  // descendant, the last definition down the chain.
  lemma DispatchReachesOverride(chain: seq<Decl>, a: nat, slot: nat, k: nat)
    requires a < |chain| && slot < |SlotNames(chain[..a + 1])|
    requires var m := SlotNames(chain[..a + 1])[slot];
      Defines(chain, k, m) && forall j :: k < j < |chain| ==> !Defines(chain, j, m)
    ensures slot < |Vtable(chain)| && Vtable(chain)[slot] == chain[k].name
  {
    SlotsInherited(chain, a + 1);
    DefinerIsLast(chain, SlotNames(chain[..a + 1])[slot], k);
  }

  lemma {:induction false} LayoutInherited(chain: seq<Decl>, k: nat)
    requires k <= |chain|
    ensures Layout(chain[..k]) <= Layout(chain)
  {
    var last := |chain| - 1;
    if k == |chain| {
      assert chain[..k] == chain;
    } else {
      LayoutInherited(chain[..last], k);
      assert chain[..last][..k] == chain[..k];
    }
  }

  lemma {:induction false} IndexOfLaws(fields: seq<string>, f: string)
    ensures f in IndexOf(fields) <==> f in fields
    ensures f in fields ==> IndexOf(fields)[f] < |fields| && fields[IndexOf(fields)[f]] == f
  {
    if fields != [] {
      var last := |fields| - 1;
      IndexOfLaws(fields[..last], f);
      assert fields == fields[..last] + [fields[last]];
    }
  }

  lemma {:induction false} IndexKept(fields: seq<string>, more: seq<string>, f: string)
    requires f in fields && f !in more
    ensures f in IndexOf(fields + more) && f in IndexOf(fields) && IndexOf(fields + more)[f] == IndexOf(fields)[f]
  {
    IndexOfLaws(fields, f);
    if more == [] {
      assert fields + more == fields;
    } else {
      var last := |more| - 1;
      assert more == more[..last] + [more[last]];
      IndexKept(fields, more[..last], f);
      assert (fields + more)[..|fields + more| - 1] == fields + more[..last];
    }
  }

  // A field that no descendant redeclares keeps its index down the chain.
  lemma {:induction false} FieldsInherited(chain: seq<Decl>, k: nat, f: string)
    requires k <= |chain| && f in Layout(chain[..k])
    requires forall j :: k <= j < |chain| ==> f !in chain[j].fields
    ensures f in IndexOf(Layout(chain)) && f in IndexOf(Layout(chain[..k]))
    ensures IndexOf(Layout(chain))[f] == IndexOf(Layout(chain[..k]))[f]
  {
    IndexOfLaws(Layout(chain[..k]), f);
    var last := |chain| - 1;
    if k == |chain| {
      assert chain[..k] == chain;
    } else {
      assert chain[..last][..k] == chain[..k];
      FieldsInherited(chain[..last], k, f);
      IndexOfLaws(Layout(chain[..last]), f);
      IndexKept(Layout(chain[..last]), chain[last].fields, f);
    }
  }

  // ── The layout by position ──

  ghost function FieldCount(chain: seq<Decl>): nat {
    if chain == [] then 0 else FieldCount(chain[..|chain| - 1]) + |chain[|chain| - 1].fields|
  }

  // The vtable pointer, then every declared field, in the order of the chain and of
  // each declaration, and nothing else.
  lemma {:induction false} LayoutIs(chain: seq<Decl>)
    ensures |Layout(chain)| == 1 + FieldCount(chain) && Layout(chain)[0] == "__vtable"
    ensures forall k, i :: 0 <= k < |chain| && 0 <= i < |chain[k].fields| ==> FieldStands(chain, k, i)
  {
    if chain != [] {
      var last := |chain| - 1;
      LayoutIs(chain[..last]);
      forall k, i | 0 <= k < |chain| && 0 <= i < |chain[k].fields|
        ensures FieldStands(chain, k, i)
      {
        if k < last {
          assert chain[..last][..k] == chain[..k] && chain[..last][k] == chain[k];
          assert FieldStands(chain[..last], k, i);
        }
      }
    }
  }

  // Field i of species k comes after the vtable pointer, the fields of the species above
  // it and its own earlier ones.
  ghost predicate FieldStands(chain: seq<Decl>, k: nat, i: nat)
    requires k < |chain| && i < |chain[k].fields|
  {
    var p := 1 + FieldCount(chain[..k]) + i;
    p < |Layout(chain)| && Layout(chain)[p] == chain[k].fields[i]
  }

  // The index of a name is its last place.
  lemma {:induction false} IndexIsLast(fields: seq<string>, p: nat)
    requires p < |fields| && fields[p] !in fields[p + 1..]
    ensures fields[p] in IndexOf(fields) && IndexOf(fields)[fields[p]] == p
  {
    var last := |fields| - 1;
    if p < last {
      assert fields[last] in fields[p + 1..];
      assert fields[..last][p + 1..] == fields[p + 1..][..last - p - 1];
      IndexIsLast(fields[..last], p);
    }
  }

  // So a field not declared again, further down or later in its own species, has the
  // index of the place it was declared at.
  lemma FieldIndexIs(chain: seq<Decl>, k: nat, i: nat)
    requires k < |chain| && i < |chain[k].fields| && chain[k].fields[i] !in chain[k].fields[i + 1..]
    requires forall j :: k < j < |chain| ==> chain[k].fields[i] !in chain[j].fields
    ensures var index := IndexOf(Layout(chain));
      chain[k].fields[i] in index && index[chain[k].fields[i]] == 1 + FieldCount(chain[..k]) + i
  {
    var up, f := chain[..k + 1], chain[k].fields[i];
    assert up[..k] == chain[..k] && up[k] == chain[k];
    LayoutIs(up);
    LayoutIs(chain[..k]);
    assert FieldStands(up, k, i);
    var p := 1 + FieldCount(chain[..k]) + i;
    assert Layout(up)[p + 1..] == chain[k].fields[i + 1..];
    IndexIsLast(Layout(up), p);
    FieldsInherited(chain, k + 1, f);
  }

  // ── Slots by position ──

  // Action i of species k is the first of its name in the chain.
  ghost predicate FirstDefined(chain: seq<Decl>, k: int, i: int) {
    0 <= k < |chain| && 0 <= i < |chain[k].actions| && chain[k].actions[i] !in chain[k].actions[..i] &&
    forall j :: 0 <= j < k ==> !Defines(chain, j, chain[k].actions[i])
  }

  // The slots given out before action i of species k.
  ghost function SlotsBefore(chain: seq<Decl>, k: nat, i: nat): seq<string>
    requires k < |chain| && i <= |chain[k].actions|
  {
    AddNew(SlotNames(chain[..k]), chain[k].actions[..i])
  }

  lemma SlotsBeforeKept(chain: seq<Decl>, k: nat, i: nat)
    requires k < |chain| && i <= |chain[k].actions|
    ensures SlotsBefore(chain, k, i) <= SlotNames(chain)
  {
    SlotsDistinct(chain[..k]);
    AddNewPrefix(SlotNames(chain[..k]), chain[k].actions, i);
    SlotsInherited(chain, k + 1);
    assert chain[..k + 1][..k] == chain[..k];
  }

  lemma {:induction false} AddNewPrefix(order: seq<string>, actions: seq<string>, i: nat)
    requires i <= |actions|
    ensures AddNew(order, actions[..i]) <= AddNew(order, actions)
  {
    if i < |actions| {
      var last := |actions| - 1;
      AddNewPrefix(order, actions[..last], i);
      assert actions[..last][..i] == actions[..i];
    } else {
      assert actions[..i] == actions;
    }
  }

  // A method's slot is the number of slots given out before its first definition.
  lemma FirstSlot(chain: seq<Decl>, k: nat, i: nat)
    requires FirstDefined(chain, k, i)
    ensures var p := |SlotsBefore(chain, k, i)|; p < |SlotNames(chain)| && SlotNames(chain)[p] == chain[k].actions[i]
    ensures chain[k].actions[i] in SlotsBefore(chain, k, i + 1)
    ensures |SlotsBefore(chain, k, i)| < |SlotsBefore(chain, k, i + 1)|
  {
    var a, order := chain[k].actions[i], SlotNames(chain[..k]);
    SlotsCover(chain[..k], a);
    if a in order {
      var j :| Defines(chain[..k], j, a);
      assert Defines(chain, j, a);
    }
    SlotsDistinct(chain[..k]);
    AddNewLaws(order, chain[k].actions[..i]);
    assert chain[k].actions[..i + 1][..i] == chain[k].actions[..i];
    SlotsBeforeKept(chain, k, i + 1);
  }

  // Slots are numbered in the order of first definitions, down the chain and along each
  // declaration.
  lemma SlotOrder(chain: seq<Decl>, k: nat, i: nat, l: nat, j: nat)
    requires FirstDefined(chain, k, i) && FirstDefined(chain, l, j) && (k < l || (k == l && i < j))
    ensures var p, q := |SlotsBefore(chain, k, i)|, |SlotsBefore(chain, l, j)|;
      p < q < |SlotNames(chain)| && SlotNames(chain)[p] == chain[k].actions[i]
        && SlotNames(chain)[q] == chain[l].actions[j]
  {
    FirstSlot(chain, k, i);
    FirstSlot(chain, l, j);
    if k < l {
      assert chain[..l][..k] == chain[..k] && chain[..l][k] == chain[k];
      SlotsBeforeKept(chain[..l], k, i + 1);
      SlotsDistinct(chain[..l]);
      AddNewLaws(SlotNames(chain[..l]), chain[l].actions[..j]);
    } else {
      AddNewPrefix(SlotNames(chain[..k]), chain[k].actions[..j], i + 1);
      assert chain[k].actions[..j][..i + 1] == chain[k].actions[..i + 1];
    }
  }

  // ── The registry ──

  type Types = map<string, Info>
  type Chains = map<string, seq<Decl>>

  // The chain of species n is its parent's chain followed by its own declaration.
  ghost predicate ChainOk(types: Types, chains: Chains, n: string) {
    n in types && n in chains &&
    var chain, info := chains[n], types[n];
    && chain != []
    && chain[|chain| - 1].name == n && info.parent == chain[|chain| - 1].parent
    && info.actions == chain[|chain| - 1].actions
    && chain[..|chain| - 1] == Above(chains, info.parent)
    && (info.parent.Some? ==> info.parent.value in types && info.parent.value in chains)
  }

  // The chain above a species with the given parent.
  ghost function Above(chains: Chains, parent: Option<string>): seq<Decl> {
    if parent.Some? && parent.value in chains then chains[parent.value] else []
  }

  ghost predicate ChainsOk(types: Types, chains: Chains) {
    types.Keys == chains.Keys && forall n :: n in types ==> ChainOk(types, chains, n)
  }

  // The entry is the layout of the chain.
  ghost predicate InfoOk(chain: seq<Decl>, info: Info) {
    && chain != []
    && info.fields == Layout(chain) && info.fieldIndex == IndexOf(Layout(chain))
    && info.slots.order == SlotNames(chain) && Numbered(info.slots)
    && info.vtable == Vtable(chain)
  }

  lemma ChainsGrow(types: Types, chains: Chains, node: Decl, entry: Info)
    requires ChainsOk(types, chains) && node.name !in types && (node.parent.Some? ==> node.parent.value in types)
    requires entry.parent == node.parent && entry.actions == node.actions
    ensures ChainsOk(types[node.name := entry], chains[node.name := Above(chains, node.parent) + [node]])
  {
    hide ChainOk, Above;
    var chain := Above(chains, node.parent) + [node];
    NewChain(types, chains, node, entry);
    forall n | n in types
      ensures ChainOk(types[node.name := entry], chains[node.name := chain], n)
    {
      ChainStays(types, chains, n, node.name, entry, chain);
    }
  }

  lemma NewChain(types: Types, chains: Chains, node: Decl, entry: Info)
    requires types.Keys == chains.Keys && node.name !in types && (node.parent.Some? ==> node.parent.value in types)
    requires entry.parent == node.parent && entry.actions == node.actions
    ensures ChainOk(types[node.name := entry], chains[node.name := Above(chains, node.parent) + [node]], node.name)
  {
    var up := Above(chains, node.parent);
    assert (up + [node])[..|up|] == up;
    assert node.parent.Some? ==> node.parent.value != node.name;
  }

  lemma ChainStays(types: Types, chains: Chains, n: string, x: string, entry: Info, chain: seq<Decl>)
    requires ChainOk(types, chains, n) && types.Keys == chains.Keys && x !in types
    ensures ChainOk(types[x := entry], chains[x := chain], n)
  {
    assert x != n && (types[n].parent.Some? ==> types[n].parent.value != x);
  }

  lemma ChainsSame(types: Types, chains: Chains, n: string, entry: Info)
    requires ChainsOk(types, chains) && n in types
    requires entry.parent == types[n].parent && entry.actions == types[n].actions
    ensures ChainsOk(types[n := entry], chains)
  {
    var types' := types[n := entry];
    forall x | x in types'
      ensures ChainOk(types', chains, x)
    {
      assert ChainOk(types, chains, x);
    }
  }

  class Registry {
    var types: map<string, Info>
    ghost var chains: map<string, seq<Decl>>

    ghost predicate Valid()
      reads this
    {
      ChainsOk(types, chains) && forall n :: n in types && n in chains ==> InfoOk(chains[n], types[n])
    }

    constructor ()
      ensures Valid() && types == map[]
    {
      types, chains := map[], map[];
    }

    // _computeMethodSlots: the parent's slots first, then new names in order.
    method ComputeMethodSlots(name: string) returns (slots: SlotMap)
      requires ChainsOk(types, chains)
      ensures name in types ==> slots.order == SlotNames(chains[name]) && Numbered(slots)
      ensures name !in types ==> slots == SlotMap([], map[])
      decreases if name in chains then |chains[name]| else 0
    {
      slots := SlotMap([], map[]);
      if name !in types { return; }
      var info := types[name];
      ghost var chain := chains[name];
      ghost var above := SlotNames(chain[..|chain| - 1]);
      if info.parent.Some? {
        assert ChainOk(types, chains, name);
        var parentSlots := ComputeMethodSlots(info.parent.value);
        slots := CopySlots(parentSlots);
      }
      assert slots.order == above;
      slots := AddActions(slots, info.actions);
    }

    // Field 0 is the vtable pointer; then the parent's fields, then the species' own.
    method CollectFields(node: Decl) returns (allFields: seq<string>, fieldIndex: map<string, nat>)
      requires Valid() && (node.parent.Some? ==> node.parent.value in types)
      ensures allFields == Layout(Above(chains, node.parent) + [node]) && fieldIndex == IndexOf(allFields)
    {
      ghost var up := Above(chains, node.parent);
      var parentFields := [VTABLE];
      if node.parent.Some? {
        assert InfoOk(up, types[node.parent.value]);
        parentFields := types[node.parent.value].fields;
        LayoutHead(up);
      }
      assert parentFields == Layout(up);
      allFields, fieldIndex := [VTABLE], map[VTABLE := 0];
      assert IndexOf([VTABLE]) == map[VTABLE := 0] by { assert [VTABLE][..0] == []; }
      allFields, fieldIndex := AppendFields(allFields, fieldIndex, parentFields[1..]);
      assert allFields == parentFields;
      allFields, fieldIndex := AppendFields(allFields, fieldIndex, node.fields);
      assert (up + [node])[..|up|] == up;
    }

    // The species whose definition a method of the given species runs.
    method FindImplementation(name: string, methodName: string) returns (impl: string)
      requires ChainsOk(types, chains) && name in types && chains[name] != []
      ensures impl == Entry(chains[name], methodName)
    {
      impl := name;
      assert ChainOk(types, chains, name);
      ghost var chain := chains[name];
      if methodName !in types[name].actions && types[name].parent.Some? {
        var walk := types[name].parent;
        ghost var up := chain[..|chain| - 1];
        while walk.Some?
          invariant up == Above(chains, walk) && (walk.Some? ==> walk.value in types)
          invariant impl == name && Definer(chain, methodName) == Definer(up, methodName)
          decreases |up|
        {
          var walkInfo := types[walk.value];
          assert ChainOk(types, chains, walk.value);
          if methodName in walkInfo.actions {
            return walk.value;
          }
          up := up[..|up| - 1];
          walk := walkInfo.parent;
        }
        assert Definer(up, methodName) == None;
      } else {
        assert types[name].parent.None? ==> Definer(chain[..|chain| - 1], methodName) == None;
      }
    }

    // _registerSpeciesType, parents before children.
    method Register(node: Decl)
      requires Valid() && node.name !in types && (node.parent.Some? ==> node.parent.value in types)
      modifies this
      ensures Valid() && node.name in types
      ensures chains == old(chains)[node.name := Above(old(chains), node.parent) + [node]]
      ensures forall n :: n in old(types) ==> n in types && types[n] == old(types)[n]
    {
      hide Layout, SlotNames, IndexOf, Vtable, Numbered, ChainOk;
      var allFields, fieldIndex := CollectFields(node);
      // Stored before the slots are known, so that the slot computation can start here.
      var entry := Info(allFields, fieldIndex, node.actions, node.parent, SlotMap([], map[]), []);
      ChainsGrow(types, chains, node, entry);
      types := types[node.name := entry];
      chains := chains[node.name := Above(chains, node.parent) + [node]];
      var slots := ComputeMethodSlots(node.name);
      var vtable := BuildVtable(node.name, slots);
      ChainsSame(types, chains, node.name, entry.(slots := slots, vtable := vtable));
      types := types[node.name := entry.(slots := slots, vtable := vtable)];
    }

    // One vtable entry for each slot, in the map's insertion order.
    method BuildVtable(name: string, slots: SlotMap) returns (vtable: seq<string>)
      requires ChainsOk(types, chains) && name in types
      requires name in chains && chains[name] != [] && slots.order == SlotNames(chains[name])
      ensures vtable == Vtable(chains[name])
    {
      vtable := [];
      var i := 0;
      while i < |slots.order|
        invariant 0 <= i <= |slots.order| && |vtable| == i
        invariant forall j :: 0 <= j < i ==> vtable[j] == Entry(chains[name], slots.order[j])
      {
        var impl := FindImplementation(name, slots.order[i]);
        vtable := vtable + [impl];
        i := i + 1;
      }
    }

    // A method call on a variable of species declared, holding an object of species actual:
    // the slot comes from the variable's layout, the vtable from the object.
    method Dispatch(declared: string, actual: string, methodName: string) returns (impl: Option<string>)
      requires Valid() && declared in types && actual in types && chains[declared] <= chains[actual]
      ensures impl == if methodName in SlotNames(chains[declared]) then Definer(chains[actual], methodName) else None
      ensures methodName in SlotNames(chains[declared]) ==> impl.Some?
    {
      assert InfoOk(chains[declared], types[declared]) && InfoOk(chains[actual], types[actual]);
      var idx := types[declared].slots.idx;
      ghost var up, down := chains[declared], chains[actual];
      if methodName !in idx { return None; }
      var slot := idx[methodName];
      SlotFound(types[declared].slots, methodName);
      SlotsInherited(down, |up|);
      assert down[..|up|] == up;
      SlotsCover(down, methodName);
      ghost var k :| Defines(down, k, methodName);
      DefinedSomewhere(down, methodName, k);
      impl := Some(types[actual].vtable[slot]);
    }
  }

  lemma SlotFound(m: SlotMap, x: string)
    requires Numbered(m) && x in m.idx
    ensures m.idx[x] < |m.order| && m.order[m.idx[x]] == x
  {
  }

  lemma {:induction false} DefinedSomewhere(chain: seq<Decl>, m: string, k: nat)
    requires Defines(chain, k, m)
    ensures Definer(chain, m).Some?
  {
    var last := |chain| - 1;
    if m !in chain[last].actions {
      assert Defines(chain[..last], k, m);
      DefinedSomewhere(chain[..last], m, k);
    }
  }

  lemma {:induction false} LayoutHead(chain: seq<Decl>)
    ensures Layout(chain) != [] && Layout(chain)[..1] == [VTABLE]
  {
    if chain != [] { LayoutHead(chain[..|chain| - 1]); }
  }

  // Each further field in turn gets the next index.
  method AppendFields(allFields: seq<string>, fieldIndex: map<string, nat>, more: seq<string>)
    returns (fields: seq<string>, index: map<string, nat>)
    requires fieldIndex == IndexOf(allFields)
    ensures fields == allFields + more && index == IndexOf(fields)
  {
    fields, index := allFields, fieldIndex;
    var i := 0;
    while i < |more|
      invariant 0 <= i <= |more| && fields == allFields + more[..i] && index == IndexOf(fields)
    {
      fields, index := AddField(fields, index, more[i]);
      i := i + 1;
    }
    assert more[..i] == more;
  }

  method AddField(allFields: seq<string>, fieldIndex: map<string, nat>, f: string)
    returns (fields: seq<string>, index: map<string, nat>)
    requires fieldIndex == IndexOf(allFields)
    ensures fields == allFields + [f] && index == IndexOf(fields)
  {
    fields := allFields + [f];
    index := fieldIndex[f := |allFields|];
    assert fields[..|fields| - 1] == allFields;
  }

  // New methods take the next slots in declaration order; known ones keep theirs.
  method AddActions(m: SlotMap, actions: seq<string>) returns (r: SlotMap)
    requires Numbered(m)
    ensures r.order == AddNew(m.order, actions) && Numbered(r)
  {
    r := m;
    var i := 0;
    while i < |actions|
      invariant 0 <= i <= |actions| && Numbered(r)
      invariant r.order == AddNew(m.order, actions[..i])
    {
      var a := actions[i];
      assert actions[..i + 1][..i] == actions[..i];
      if a !in r.idx {
        r := SetNew(r, a);
      }
      i := i + 1;
    }
    assert actions[..i] == actions;
  }

  // A name not in the map yet gets the next slot.
  method SetNew(m: SlotMap, a: string) returns (r: SlotMap)
    requires Numbered(m) && a !in m.idx
    ensures Numbered(r) && r.order == m.order + [a]
  {
    r := SlotMap(m.order + [a], m.idx[a := |m.order|]);
  }

  // A copy of the parent's slots, in their order.
  method CopySlots(m: SlotMap) returns (r: SlotMap)
    requires Numbered(m)
    ensures r.order == m.order && Numbered(r)
  {
    r := SlotMap([], map[]);
    var i := 0;
    while i < |m.order|
      invariant 0 <= i <= |m.order| && r.order == m.order[..i] && Numbered(r)
    {
      r := SetNew(r, m.order[i]);
      i := i + 1;
    }
  }
}
