/** Splitting a batched node: every combination of the inputs its batch strategies offer goes to one
    sub-task. */
module Debatch {
  import opened Basics
  import opened WorkflowModel

  datatype Input = TextInput(id: Uuid) | FileOf(file: FileInput)

  /** A batched slot and all the inputs it can take. */
  type Offer = (string, seq<Input>)

  /** One choice of input per batched slot, in strategy order. */
  type Combo = seq<(string, Input)>

  // ---------------------------------------------------------------- the combinations

  function First(slot: string, inputs: seq<Input>): (combos: seq<Combo>)
    ensures |combos| == |inputs|
  {
    seq(|inputs|, j requires 0 <= j < |inputs| => [(slot, inputs[j])])
  }

  function WithInput(combos: seq<Combo>, slot: string, input: Input): (r: seq<Combo>)
    ensures |r| == |combos|
  {
    seq(|combos|, k requires 0 <= k < |combos| => combos[k] + [(slot, input)])
  }

  /** For each input, every combination so far, in order. */
  function Times(combos: seq<Combo>, slot: string, inputs: seq<Input>): seq<Combo> {
    if inputs == [] then []
    else Times(combos, slot, inputs[..|inputs| - 1]) + WithInput(combos, slot, inputs[|inputs| - 1])
  }

  function Extend(combos: seq<Combo>, offer: Offer): seq<Combo> {
    if combos == [] then First(offer.0, offer.1) else Times(combos, offer.0, offer.1)
  }

  function Combos(offers: seq<Offer>): seq<Combo> {
    if offers == [] then [] else Extend(Combos(offers[..|offers| - 1]), offers[|offers| - 1])
  }

  /** The nested loops of `sub_nodes`. */
  method AllCombos(offers: seq<Offer>) returns (combos: seq<Combo>)
    ensures combos == Combos(offers)
  {
    combos := [];
    assert offers[..0] == [];
    for i := 0 to |offers|
      invariant combos == Combos(offers[..i])
    {
      assert offers[..i + 1][..i] == offers[..i];
      var (slot, inputs) := offers[i];
      if combos == [] {
        for j := 0 to |inputs|
          invariant combos == First(slot, inputs)[..j]
        {
          combos := combos + [[(slot, inputs[j])]];
        }
        assert First(slot, inputs)[..|inputs|] == First(slot, inputs);
      } else {
        combos := TimesAll(combos, slot, inputs);
      }
    }
    assert offers[..|offers|] == offers;
  }

  method TimesAll(temp: seq<Combo>, slot: string, inputs: seq<Input>) returns (combos: seq<Combo>)
    ensures combos == Times(temp, slot, inputs)
  {
    combos := [];
    assert inputs[..0] == [];
    for j := 0 to |inputs|
      invariant combos == Times(temp, slot, inputs[..j])
    {
      assert inputs[..j + 1][..j] == inputs[..j];
      ghost var before := combos;
      for k := 0 to |temp|
        invariant combos == before + WithInput(temp, slot, inputs[j])[..k]
      {
        combos := combos + [temp[k] + [(slot, inputs[j])]];
      }
      assert WithInput(temp, slot, inputs[j])[..|temp|] == WithInput(temp, slot, inputs[j]);
    }
    assert inputs[..|inputs|] == inputs;
  }

  function Product(offers: seq<Offer>): nat {
    if offers == [] then 1 else Product(offers[..|offers| - 1]) * |offers[|offers| - 1].1|
  }

  lemma {:induction false} TimesLength(combos: seq<Combo>, slot: string, inputs: seq<Input>)
    ensures |Times(combos, slot, inputs)| == |combos| * |inputs|
  {
    if inputs != [] {
      TimesLength(combos, slot, inputs[..|inputs| - 1]);
      assert |combos| * |inputs| == |combos| * (|inputs| - 1) + |combos|;
    }
  }

  /** Some offer is empty and the last one is not: on the way, the source's accumulator was empty, was
      mistaken for the very first one, and started over. */
  ghost predicate Restarts(offers: seq<Offer>) {
    offers != [] && offers[|offers| - 1].1 != [] && exists i :: 0 <= i < |offers| && offers[i].1 == []
  }

  lemma MulZero(a: nat, b: nat)
    ensures a * b == 0 <==> a == 0 || b == 0
  {
  }

  lemma {:induction false} ProductZero(offers: seq<Offer>)
    ensures Product(offers) == 0 <==> exists i :: 0 <= i < |offers| && offers[i].1 == []
  {
    if offers != [] {
      var front := offers[..|offers| - 1];
      ProductZero(front);
      MulZero(Product(front), |offers[|offers| - 1].1|);
      if i: int :| 0 <= i < |front| && front[i].1 == [] { assert offers[i].1 == []; }
      if i: int :| 0 <= i < |offers| && offers[i].1 == [] { assert i == |offers| - 1 || front[i].1 == []; }
    }
  }

  lemma {:induction false} CombosEmpty(offers: seq<Offer>)
    ensures Combos(offers) == [] <==> offers == [] || offers[|offers| - 1].1 == []
  {
    if offers != [] {
      var front := Combos(offers[..|offers| - 1]);
      TimesLength(front, offers[|offers| - 1].0, offers[|offers| - 1].1);
      MulZero(|front|, |offers[|offers| - 1].1|);
    }
  }

  lemma {:induction false} FullCount(offers: seq<Offer>)
    requires offers != [] && forall i :: 0 <= i < |offers| ==> offers[i].1 != []
    ensures |Combos(offers)| == Product(offers)
  {
    var front, last := offers[..|offers| - 1], offers[|offers| - 1];
    TimesLength(Combos(front), last.0, last.1);
    if front != [] {
      FullCount(front);
      CombosEmpty(front);
    }
  }

  /** There is one combination per element of the product exactly when the accumulation did not
      start over. */
  lemma CombosCount(offers: seq<Offer>)
    requires offers != []
    ensures |Combos(offers)| == Product(offers) <==> !Restarts(offers)
  {
    ProductZero(offers);
    CombosEmpty(offers);
    if forall i :: 0 <= i < |offers| ==> offers[i].1 != [] {
      FullCount(offers);
    }
  }

  // ---------------------------------------------------------------- every choice once

  /** A choice: the position of the chosen input in each offer. */
  ghost predicate Choice(offers: seq<Offer>, choice: seq<nat>) {
    |choice| == |offers| && forall m :: 0 <= m < |offers| ==> choice[m] < |offers[m].1|
  }

  function Pick(offers: seq<Offer>, choice: seq<nat>): Combo
    requires Choice(offers, choice)
  {
    seq(|offers|, m requires 0 <= m < |offers| => (offers[m].0, offers[m].1[choice[m]]))
  }

  /** Where a choice stands in the list of combinations: the first offer varies fastest. */
  function Rank(offers: seq<Offer>, choice: seq<nat>): nat
    requires Choice(offers, choice)
  {
    if offers == [] then 0
    else
      var n := |offers| - 1;
      choice[n] * Product(offers[..n]) + Rank(offers[..n], choice[..n])
  }

  lemma {:induction false} TimesAt(combos: seq<Combo>, slot: string, inputs: seq<Input>, j: nat, k: nat)
    requires j < |inputs| && k < |combos|
    ensures j * |combos| + k < |Times(combos, slot, inputs)|
    ensures Times(combos, slot, inputs)[j * |combos| + k] == combos[k] + [(slot, inputs[j])]
  {
    var n := |inputs| - 1;
    TimesLength(combos, slot, inputs[..n]);
    assert n * |combos| == |combos| * n;
    if j < n {
      TimesAt(combos, slot, inputs[..n], j, k);
    }
  }

  lemma {:induction false} RankBound(offers: seq<Offer>, choice: seq<nat>)
    requires Choice(offers, choice)
    ensures Rank(offers, choice) < Product(offers)
  {
    if offers != [] {
      var n := |offers| - 1;
      RankBound(offers[..n], choice[..n]);
      var p, c, a := Product(offers[..n]), choice[n], |offers[n].1|;
      assert c * p + p == (c + 1) * p <= a * p == p * a by { MulLe(c + 1, a, p); }
    }
  }

  lemma MulLe(a: nat, b: nat, p: nat)
    requires a <= b
    ensures a * p <= b * p && b * p == p * b
  {
  }

  /** Every choice of inputs is one of the combinations, at its rank. */
  lemma {:induction false} ChoiceAtRank(offers: seq<Offer>, choice: seq<nat>)
    requires offers != [] && Choice(offers, choice)
    ensures |Combos(offers)| == Product(offers) && Rank(offers, choice) < |Combos(offers)|
    ensures Combos(offers)[Rank(offers, choice)] == Pick(offers, choice)
  {
    FullCount(offers);
    RankBound(offers, choice);
    var n := |offers| - 1;
    if n == 0 {
      ChoiceOfOne(offers, choice);
    } else {
      ChoiceAtRank(offers[..n], choice[..n]);
      ChoiceOfMore(offers, choice);
    }
  }

  lemma ChoiceOfOne(offers: seq<Offer>, choice: seq<nat>)
    requires |offers| == 1 && Choice(offers, choice)
    ensures Rank(offers, choice) < |Combos(offers)| && Combos(offers)[Rank(offers, choice)] == Pick(offers, choice)
  {
    var front := offers[..0];
    assert Product(front) == 1 && Combos(front) == [] && Rank(front, choice[..0]) == 0;
  }

  /** The last digit picks the block, the others the place in it. */
  lemma ChoiceOfMore(offers: seq<Offer>, choice: seq<nat>)
    requires |offers| > 1 && Choice(offers, choice)
    requires var front, c := offers[..|offers| - 1], choice[..|offers| - 1];
             && |Combos(front)| == Product(front) && Rank(front, c) < |Combos(front)|
             && Combos(front)[Rank(front, c)] == Pick(front, c)
    ensures Rank(offers, choice) < |Combos(offers)| && Combos(offers)[Rank(offers, choice)] == Pick(offers, choice)
  {
    var n := |offers| - 1;
    var front := offers[..n];
    TimesAt(Combos(front), offers[n].0, offers[n].1, choice[n], Rank(front, choice[..n]));
    PickLast(offers, choice);
  }

  lemma PickLast(offers: seq<Offer>, choice: seq<nat>)
    requires offers != [] && Choice(offers, choice)
    ensures var n := |offers| - 1;
            Pick(offers, choice) == Pick(offers[..n], choice[..n]) + [(offers[n].0, offers[n].1[choice[n]])]
  {
  }

  /** Every position in the list is the rank of some choice. */
  lemma {:induction false} RankIsOnto(offers: seq<Offer>, x: nat) returns (choice: seq<nat>)
    requires x < Product(offers)
    ensures Choice(offers, choice) && Rank(offers, choice) == x
  {
    if offers == [] {
      choice := [];
    } else {
      var n := |offers| - 1;
      var p, a := Product(offers[..n]), |offers[n].1|;
      MulZero(p, a);
      var q := x / p;
      assert x == q * p + x % p;
      assert q < a by { if q >= a { MulLe(a, q, p); } }
      var rest := RankIsOnto(offers[..n], x % p);
      choice := rest + [q];
      assert choice[..n] == rest;
    }
  }

  lemma QuotRem(p: nat, a: nat, r: nat, b: nat, s: nat)
    requires r < p && s < p && a * p + r == b * p + s
    ensures a == b && r == s
  {
    assert (a + 1) * p == a * p + p && (b + 1) * p == b * p + p;
    if a < b { MulLe(a + 1, b, p); }
    if b < a { MulLe(b + 1, a, p); }
  }

  /** Different choices have different ranks: no combination is handed out twice. */
  lemma {:induction false} RankIsOneToOne(offers: seq<Offer>, c: seq<nat>, d: seq<nat>)
    requires Choice(offers, c) && Choice(offers, d) && Rank(offers, c) == Rank(offers, d)
    ensures c == d
  {
    if offers != [] {
      var n := |offers| - 1;
      RankBound(offers[..n], c[..n]);
      RankBound(offers[..n], d[..n]);
      QuotRem(Product(offers[..n]), c[n], Rank(offers[..n], c[..n]), d[n], Rank(offers[..n], d[..n]));
      RankIsOneToOne(offers[..n], c[..n], d[..n]);
      assert c == c[..n] + [c[n]] && d == d[..n] + [d[n]];
    }
  }

  // ---------------------------------------------------------------- the sub-nodes

  /** `update_with_inputs` for one input: every slot of that name takes it. */
  function PutSlot(slot: InputSlot, input: Input): Outcome<InputSlot, ()> {
    match slot.kind
    case TextSlot(_) => if input.TextInput? then Done(slot.(kind := TextSlot(Some([input.id])))) else Failed(())
    case FileSlot(_, name, batch) =>
      if input.FileOf? then Done(slot.(kind := FileSlot(Some([input.file]), name, batch))) else Failed(())
    case UnknownSlot => Failed(())
  }

  function PutSlots(slots: seq<InputSlot>, name: string, input: Input): Outcome<seq<InputSlot>, ()> {
    if slots == [] then Done([])
    else
      var head :- if slots[0].descriptor == name then PutSlot(slots[0], input) else Done(slots[0]);
      var rest :- PutSlots(slots[1..], name, input);
      Done([head] + rest)
  }

  function UpdateWithInputs(slots: seq<InputSlot>, combo: Combo): Outcome<seq<InputSlot>, ()>
    decreases |combo|
  {
    if combo == [] then Done(slots)
    else
      var once :- PutSlots(slots, combo[0].0, combo[0].1);
      UpdateWithInputs(once, combo[1..])
  }

  /** `update_output_slots`: each output is given one fresh id. */
  function RenewOutputs(outs: seq<SpecOutput>, draw: nat -> Uuid): seq<SpecOutput> {
    seq(|outs|, j requires 0 <= j < |outs| => outs[j].(prepared := [draw(j)]))
  }

  function SubNode(node: NodeSpec, id: Uuid, combo: Combo, draw: nat -> Uuid): Outcome<NodeSpec, ()> {
    var slots :- UpdateWithInputs(node.inputs, combo);
    Done(node.(id := id, inputs := slots, outputs := RenewOutputs(node.outputs, draw)))
  }

  /** `parse_sub_nodes` on the first `n` pairs of a sub-instance id and a combination. */
  function SubNodes(node: NodeSpec, ids: seq<Uuid>, combos: seq<Combo>, draw: nat -> nat -> Uuid,
                    n: nat): Outcome<seq<NodeSpec>, ()>
    requires n <= |ids| && n <= |combos|
  {
    if n == 0 then Done([])
    else
      var front :- SubNodes(node, ids, combos, draw, n - 1);
      var last :- SubNode(node, ids[n - 1], combos[n - 1], draw(n - 1));
      Done(front + [last])
  }

  /** `zip` stops with the shorter list. */
  function Zipped<A, B>(a: seq<A>, b: seq<B>): nat {
    if |a| <= |b| then |a| else |b|
  }

  /** The inner loop of `update_with_inputs`, which passes over all slots of the node. */
  method PutAll(slots: seq<InputSlot>, name: string, input: Input) returns (put: Outcome<seq<InputSlot>, ()>)
    ensures put == PutSlots(slots, name, input)
  {
    var done: seq<InputSlot> := [];
    ghost var all := PutSlots(slots, name, input);
    assert slots[0..] == slots && (all.Done? ==> [] + all.value == all.value);
    for i := 0 to |slots|
      invariant all == Behind(done, PutSlots(slots[i..], name, input))
    {
      assert slots[i..][1..] == slots[i + 1..];
      var slot := slots[i];
      if slot.descriptor == name {
        var one := PutSlot(slot, input);
        if !one.Done? {
          return one.PropagateFailure();
        }
        slot := one.value;
      }
      BehindOne(done, slot, PutSlots(slots[i + 1..], name, input));
      done := done + [slot];
    }
    assert done + [] == done;
    put := Done(done);
  }

  ghost function Behind(done: seq<InputSlot>, rest: Outcome<seq<InputSlot>, ()>): Outcome<seq<InputSlot>, ()> {
    if rest.Done? then Done(done + rest.value) else rest
  }

  lemma BehindOne(done: seq<InputSlot>, slot: InputSlot, rest: Outcome<seq<InputSlot>, ()>)
    ensures Behind(done + [slot], rest) == Behind(done, if rest.Done? then Done([slot] + rest.value) else rest)
  {
    if rest.Done? { assert done + [slot] + rest.value == done + ([slot] + rest.value); }
  }

  /** `update_with_inputs`, which puts in the choices one by one. */
  method UpdateInputs(inputs: seq<InputSlot>, combo: Combo) returns (updated: Outcome<seq<InputSlot>, ()>)
    ensures updated == UpdateWithInputs(inputs, combo)
  {
    var slots := inputs;
    assert combo[0..] == combo;
    for m := 0 to |combo|
      invariant UpdateWithInputs(inputs, combo) == UpdateWithInputs(slots, combo[m..])
    {
      assert combo[m..][1..] == combo[m + 1..];
      var put := PutAll(slots, combo[m].0, combo[m].1);
      if !put.Done? { return put.PropagateFailure(); }
      slots := put.value;
    }
    updated := Done(slots);
  }

  method ParseSubNodes(node: NodeSpec, ids: seq<Uuid>, combos: seq<Combo>, draw: nat -> nat -> Uuid)
    returns (subs: Outcome<seq<NodeSpec>, ()>)
    ensures subs == SubNodes(node, ids, combos, draw, Zipped(ids, combos))
  {
    var done: seq<NodeSpec> := [];
    var i := 0;
    while i < Zipped(ids, combos)
      invariant 0 <= i <= Zipped(ids, combos)
      invariant SubNodes(node, ids, combos, draw, i) == Done(done)
    {
      var slots := UpdateInputs(node.inputs, combos[i]);
      if !slots.Done? {
        SubNodesFailed(node, ids, combos, draw, i + 1, Zipped(ids, combos));
        return slots.PropagateFailure();
      }
      done := done + [node.(id := ids[i], inputs := slots.value, outputs := RenewOutputs(node.outputs, draw(i)))];
      i := i + 1;
    }
    subs := Done(done);
  }

  /** The first failure is the outcome of the whole. */
  lemma {:induction false} SubNodesFailed(node: NodeSpec, ids: seq<Uuid>, combos: seq<Combo>, draw: nat -> nat -> Uuid,
                                          n: nat, m: nat)
    requires n <= m <= Zipped(ids, combos) && !SubNodes(node, ids, combos, draw, n).Done?
    ensures SubNodes(node, ids, combos, draw, m) == SubNodes(node, ids, combos, draw, n)
    decreases m
  {
    if n < m { SubNodesFailed(node, ids, combos, draw, n, m - 1); }
  }

  /** A text for a text slot, or a file for a file slot. */
  ghost predicate Takes(slot: InputSlot, input: Input) {
    (slot.kind.TextSlot? && input.TextInput?) || (slot.kind.FileSlot? && input.FileOf?)
  }

  /** The slot holds exactly that input; the rest of it stays. */
  ghost predicate Given(was: InputSlot, now: InputSlot, input: Input) {
    && now.descriptor == was.descriptor && now.optional == was.optional
    && match was.kind
       case TextSlot(_) => input.TextInput? && now.kind == TextSlot(Some([input.id]))
       case FileSlot(_, name, batch) => input.FileOf? && now.kind == FileSlot(Some([input.file]), name, batch)
       case UnknownSlot => false
  }

  /** One choice is put in exactly when every slot of its name takes it, and then those slots hold it. */
  lemma {:induction false} PutMeaning(slots: seq<InputSlot>, name: string, input: Input)
    ensures var put := PutSlots(slots, name, input);
            && (put.Done? <==> forall s :: s in slots && s.descriptor == name ==> Takes(s, input))
            && !put.Panicked?
            && (put.Done? ==>
                  && |put.value| == |slots|
                  && forall j :: 0 <= j < |slots| ==>
                       if slots[j].descriptor == name then Given(slots[j], put.value[j], input)
                       else put.value[j] == slots[j])
  {
    if slots != [] {
      PutMeaning(slots[1..], name, input);
      assert slots == [slots[0]] + slots[1..];
    }
  }

  /** Every slot takes every choice of its name. */
  ghost predicate AllTake(slots: seq<InputSlot>, combo: Combo) {
    forall s, c :: s in slots && c in combo && c.0 == s.descriptor ==> Takes(s, c.1)
  }

  /** The last choice of that name. */
  ghost predicate LastChoice(combo: Combo, name: string, m: nat) {
    m < |combo| && combo[m].0 == name && forall k :: m < k < |combo| ==> combo[k].0 != name
  }

  /** Slots of the same names and kinds. */
  ghost predicate SameKinds(a: seq<InputSlot>, b: seq<InputSlot>) {
    |a| == |b| && forall j :: 0 <= j < |a| ==>
      && a[j].descriptor == b[j].descriptor && (a[j].kind.TextSlot? <==> b[j].kind.TextSlot?)
      && (a[j].kind.FileSlot? <==> b[j].kind.FileSlot?)
  }

  lemma SameTake(a: seq<InputSlot>, b: seq<InputSlot>, combo: Combo)
    requires SameKinds(a, b) && AllTake(a, combo)
    ensures AllTake(b, combo)
  {
    forall s, c | s in b && c in combo && c.0 == s.descriptor ensures Takes(s, c.1) {
      var j :| 0 <= j < |b| && b[j] == s;
      assert a[j] in a;
    }
  }

  lemma TakeAlike(slots: seq<InputSlot>, name: string, input: Input, combo: Combo)
    requires PutSlots(slots, name, input).Done?
    ensures AllTake(PutSlots(slots, name, input).value, combo) <==> AllTake(slots, combo)
  {
    PutMeaning(slots, name, input);
    var put := PutSlots(slots, name, input).value;
    assert SameKinds(slots, put) && SameKinds(put, slots);
    if AllTake(slots, combo) { SameTake(slots, put, combo); }
    if AllTake(put, combo) { SameTake(put, slots, combo); }
  }

  /** A combination is put in exactly when every slot takes every choice of its name; otherwise an error is
      returned. */
  lemma {:induction false} UpdatesExactly(slots: seq<InputSlot>, combo: Combo)
    ensures UpdateWithInputs(slots, combo).Done? <==> AllTake(slots, combo)
    ensures !UpdateWithInputs(slots, combo).Panicked?
    decreases |combo|
  {
    if combo != [] {
      assert combo == [combo[0]] + combo[1..];
      PutMeaning(slots, combo[0].0, combo[0].1);
      var once := PutSlots(slots, combo[0].0, combo[0].1);
      if once.Done? {
        UpdatesExactly(once.value, combo[1..]);
        TakeAlike(slots, combo[0].0, combo[0].1, combo[1..]);
      }
    }
  }

  lemma GivenTwice(was: InputSlot, now: InputSlot, last: InputSlot, x: Input, y: Input)
    requires Given(was, now, x) && Given(now, last, y)
    ensures Given(was, last, y)
  {
  }

  /** Then a slot holds exactly the last choice of its name, and a slot that is not named is unchanged. */
  lemma {:induction false} UpdateMeaning(slots: seq<InputSlot>, combo: Combo, j: nat)
    requires UpdateWithInputs(slots, combo).Done? && j < |slots|
    ensures var put := UpdateWithInputs(slots, combo).value;
            && |put| == |slots|
            && (forall m: nat :: LastChoice(combo, slots[j].descriptor, m) ==> Given(slots[j], put[j], combo[m].1))
            && ((forall m :: 0 <= m < |combo| ==> combo[m].0 != slots[j].descriptor) ==> put[j] == slots[j])
    decreases |combo|
  {
    if combo != [] {
      PutMeaning(slots, combo[0].0, combo[0].1);
      var once := PutSlots(slots, combo[0].0, combo[0].1).value;
      UpdateMeaning(once, combo[1..], j);
      assert forall m :: 0 < m < |combo| ==> combo[m] == combo[1..][m - 1];
      forall m: nat | LastChoice(combo, slots[j].descriptor, m)
        ensures Given(slots[j], UpdateWithInputs(slots, combo).value[j], combo[m].1)
      {
        LastChoiceHolds(slots, combo, j, m);
      }
    }
  }

  lemma LastChoiceHolds(slots: seq<InputSlot>, combo: Combo, j: nat, m: nat)
    requires UpdateWithInputs(slots, combo).Done? && j < |slots| && LastChoice(combo, slots[j].descriptor, m)
    requires var once := PutSlots(slots, combo[0].0, combo[0].1);
             && once.Done? && |once.value| == |slots|
             && var put := UpdateWithInputs(once.value, combo[1..]);
             && put.Done? && |put.value| == |slots|
             && (forall k: nat :: LastChoice(combo[1..], once.value[j].descriptor, k) ==>
                   Given(once.value[j], put.value[j], combo[1..][k].1))
             && ((forall k :: 0 <= k < |combo[1..]| ==> combo[1..][k].0 != once.value[j].descriptor) ==>
                   put.value[j] == once.value[j])
    ensures Given(slots[j], UpdateWithInputs(slots, combo).value[j], combo[m].1)
  {
    PutMeaning(slots, combo[0].0, combo[0].1);
    var once := PutSlots(slots, combo[0].0, combo[0].1).value;
    if m > 0 {
      assert LastChoice(combo[1..], once[j].descriptor, m - 1);
      if combo[0].0 == slots[j].descriptor {
        GivenTwice(slots[j], once[j], UpdateWithInputs(slots, combo).value[j], combo[0].1, combo[m].1);
      }
    }
  }

  /** The sub-nodes are made exactly when every combination used is taken; otherwise an error is returned. */
  lemma {:induction false} SubNodesExactly(node: NodeSpec, ids: seq<Uuid>, combos: seq<Combo>,
                                           draw: nat -> nat -> Uuid, n: nat)
    requires n <= Zipped(ids, combos)
    ensures SubNodes(node, ids, combos, draw, n).Done? <==> forall x :: 0 <= x < n ==> AllTake(node.inputs, combos[x])
    ensures !SubNodes(node, ids, combos, draw, n).Panicked?
  {
    if n > 0 {
      SubNodesExactly(node, ids, combos, draw, n - 1);
      UpdatesExactly(node.inputs, combos[n - 1]);
    }
  }

  /** The sub-node of a combination: its own id, each slot named holding the last choice of its name, each
      output one id of its own, and everything else the parent's. */
  ghost predicate MadeFor(node: NodeSpec, sub: NodeSpec, id: Uuid, combo: Combo, draw: nat -> Uuid) {
    && sub.id == id && sub.name == node.name && sub.strategies == node.strategies && sub.scheduling == node.scheduling
    && |sub.inputs| == |node.inputs| && |sub.outputs| == |node.outputs|
    && (forall j, m: nat :: 0 <= j < |node.inputs| && LastChoice(combo, node.inputs[j].descriptor, m) ==>
          Given(node.inputs[j], sub.inputs[j], combo[m].1))
    && (forall j :: 0 <= j < |node.inputs| && Unnamed(combo, node.inputs[j].descriptor) ==>
          sub.inputs[j] == node.inputs[j])
    && forall j :: 0 <= j < |node.outputs| ==>
         && sub.outputs[j].descriptor == node.outputs[j].descriptor && sub.outputs[j].kind == node.outputs[j].kind
         && sub.outputs[j].prepared == [draw(j)]
  }

  ghost predicate Unnamed(combo: Combo, name: string) {
    forall c :: c in combo ==> c.0 != name
  }

  lemma SubNodeMade(node: NodeSpec, id: Uuid, combo: Combo, draw: nat -> Uuid)
    requires SubNode(node, id, combo, draw).Done?
    ensures MadeFor(node, SubNode(node, id, combo, draw).value, id, combo, draw)
  {
    var sub := SubNode(node, id, combo, draw).value;
    if node.inputs == [] {
      UpdatedEmpty(combo);
    } else {
      UpdateMeaning(node.inputs, combo, 0);
    }
    forall j | 0 <= j < |node.inputs|
      ensures forall m: nat :: LastChoice(combo, node.inputs[j].descriptor, m) ==>
                Given(node.inputs[j], sub.inputs[j], combo[m].1)
      ensures Unnamed(combo, node.inputs[j].descriptor) ==> sub.inputs[j] == node.inputs[j]
    {
      UpdateMeaning(node.inputs, combo, j);
      assert forall m :: 0 <= m < |combo| ==> combo[m] in combo;
    }
  }

  lemma {:induction false} UpdatedEmpty(combo: Combo)
    ensures UpdateWithInputs([], combo) == Done([])
    decreases |combo|
  {
    if combo != [] { UpdatedEmpty(combo[1..]); }
  }

  lemma {:induction false} SubNodesAt(node: NodeSpec, ids: seq<Uuid>, combos: seq<Combo>, draw: nat -> nat -> Uuid,
                                      n: nat, x: nat)
    requires x < n <= Zipped(ids, combos) && SubNodes(node, ids, combos, draw, n).Done?
    ensures |SubNodes(node, ids, combos, draw, n).value| == n
    ensures Done(SubNodes(node, ids, combos, draw, n).value[x]) == SubNode(node, ids[x], combos[x], draw(x))
  {
    if x < n - 1 {
      SubNodesAt(node, ids, combos, draw, n - 1, x);
    } else if n > 1 {
      SubNodesAt(node, ids, combos, draw, n - 1, 0);
    }
  }

  /** Every input offered for a slot is taken by every slot of that name. */
  ghost predicate OffersSuit(node: NodeSpec, offers: seq<Offer>) {
    forall o, input, s :: o in offers && input in o.1 && s in node.inputs && s.descriptor == o.0 ==> Takes(s, input)
  }

  lemma CombosSuit(node: NodeSpec, offers: seq<Offer>, x: nat)
    requires offers != [] && x < Product(offers) && OffersSuit(node, offers)
    ensures x < |Combos(offers)| && AllTake(node.inputs, Combos(offers)[x])
  {
    var choice := RankIsOnto(offers, x);
    ChoiceAtRank(offers, choice);
    var combo := Pick(offers, choice);
    forall s, c | s in node.inputs && c in combo && c.0 == s.descriptor ensures Takes(s, c.1) {
      var m :| 0 <= m < |combo| && combo[m] == c;
      assert offers[m] in offers && offers[m].1[choice[m]] in offers[m].1;
    }
  }

  /** Each input offered is part of some combination. */
  lemma Offered(offers: seq<Offer>, m: nat, k: nat) returns (x: nat)
    requires m < |offers| && k < |offers[m].1| && forall i :: 0 <= i < |offers| ==> offers[i].1 != []
    ensures x < Product(offers) == |Combos(offers)| && (offers[m].0, offers[m].1[k]) in Combos(offers)[x]
  {
    var choice := seq(|offers|, i requires 0 <= i < |offers| => if i == m then k else 0);
    ChoiceAtRank(offers, choice);
    x := Rank(offers, choice);
    assert Pick(offers, choice)[m] == (offers[m].0, offers[m].1[k]);
  }

  lemma SuitFromCombos(node: NodeSpec, offers: seq<Offer>)
    requires offers != [] && forall i :: 0 <= i < |offers| ==> offers[i].1 != []
    requires forall x :: 0 <= x < |Combos(offers)| ==> AllTake(node.inputs, Combos(offers)[x])
    ensures OffersSuit(node, offers)
  {
    forall o, input, s | o in offers && input in o.1 && s in node.inputs && s.descriptor == o.0
      ensures Takes(s, input)
    {
      var m: nat :| m < |offers| && offers[m] == o;
      var k: nat :| k < |o.1| && o.1[k] == input;
      var x := Offered(offers, m, k);
      assert AllTake(node.inputs, Combos(offers)[x]);
    }
  }

  /** With as many sub-instances as the product of the offers (the sub-node count), there is a combination
      for every sub-instance, even when the list of combinations started over. The sub-nodes are made
      exactly when there are none to make or every slot takes what is offered for it; and the x-th is made
      for the x-th id and the x-th combination. */
  lemma EverySubInstanceServed(node: NodeSpec, ids: seq<Uuid>, offers: seq<Offer>, draw: nat -> nat -> Uuid)
    requires offers != [] && |ids| == Product(offers)
    ensures Zipped(ids, Combos(offers)) == |ids|
    ensures SubNodes(node, ids, Combos(offers), draw, |ids|).Done? <==> ids == [] || OffersSuit(node, offers)
    ensures var subs := SubNodes(node, ids, Combos(offers), draw, |ids|);
            subs.Done? ==>
              && |subs.value| == |ids|
              && forall x :: 0 <= x < |ids| ==>
                   MadeFor(node, subs.value[x], ids[x], Combos(offers)[x], draw(x))
  {
    EnoughCombos(ids, offers);
    SubNodesExactly(node, ids, Combos(offers), draw, |ids|);
    if OffersSuit(node, offers) {
      forall x | 0 <= x < |ids| ensures AllTake(node.inputs, Combos(offers)[x]) { CombosSuit(node, offers, x); }
    }
    var subs := SubNodes(node, ids, Combos(offers), draw, |ids|);
    if subs.Done? {
      if ids != [] {
        ProductZero(offers);
        FullCount(offers);
        SuitFromCombos(node, offers);
        SubNodesAt(node, ids, Combos(offers), draw, |ids|, 0);
      }
      forall x | 0 <= x < |ids|
        ensures |subs.value| == |ids| && MadeFor(node, subs.value[x], ids[x], Combos(offers)[x], draw(x))
      {
        SubNodesAt(node, ids, Combos(offers), draw, |ids|, x);
        SubNodeMade(node, ids[x], Combos(offers)[x], draw(x));
      }
    }
  }

  lemma EnoughCombos(ids: seq<Uuid>, offers: seq<Offer>)
    requires offers != [] && |ids| == Product(offers)
    ensures Zipped(ids, Combos(offers)) == |ids|
  {
    ProductZero(offers);
    if forall i :: 0 <= i < |offers| ==> offers[i].1 != [] { FullCount(offers); }
  }
}
