/** The behaviour of the per-property cache as a state machine over values.
    A configuration holds the filled cache slots (one per property, filled
    or empty) and the backing table. The operations are the generated
    getter and setter of a property and a direct write to the table through
    the generic interface. */
module PropertyCache {
  import opened Values
  import opened Properties
  import opened BackingStore

  /** A profile's state: the properties whose slot is filled, with what it
      holds, and the backing table. */
  datatype Config = Config(slots: map<Prop, Value>, table: Table)

  /** What a getter call leaves behind and what it returns. */
  datatype Reading = Reading(after: Config, value: Value)

  datatype Op =
    | Get(p: Prop, d: Value)                 // the getter of p, with default d
    | Set(p: Prop, v: Value, save: bool)     // the setter of p
    | Put(key: string, v: Value, save: bool) // a direct write through the generic interface

  /** The slot of a property: None while it has never been filled. */
  function SlotOf(c: Config, p: Prop): Variant {
    if p in c.slots then Some(c.slots[p]) else None
  }

  /** The getter. An empty slot is filled from the table, with the default
      standing in for a missing row; a filled slot is returned as it is. The
      result is the slot read back at the property's declared kind. */
  function GetStep(c: Config, p: Prop, d: Value): (r: Reading)
    ensures r.value.KindOf() == DeclaredKind(p)
    ensures r.after.table == c.table
    ensures p in r.after.slots && r.value == Convert(Some(r.after.slots[p]), DeclaredKind(p))
    ensures r.after.slots - {p} == c.slots - {p}
    ensures p in c.slots ==> r.after == c
    ensures p !in c.slots ==> Some(r.after.slots[p]) == Lookup(c.table, Name(p), Some(d))
  {
    if p in c.slots then Reading(c, Convert(Some(c.slots[p]), DeclaredKind(p)))
    else
      var x := Lookup(c.table, Name(p), Some(d)).value;
      Reading(c.(slots := c.slots[p := x]), Convert(Some(x), DeclaredKind(p)))
  }

  /** The setter: the slot takes v whatever save is, and the table records v
      under the property's name when save holds. */
  function SetStep(c: Config, p: Prop, v: Value, save: bool): (r: Config)
    ensures SlotOf(r, p) == Some(v)
    ensures r.slots - {p} == c.slots - {p}
    ensures r.table == Saved(c.table, Name(p), v, save)
  {
    Config(c.slots[p := v], Saved(c.table, Name(p), v, save))
  }

  function Apply(c: Config, op: Op): Config {
    match op
    case Get(p, d) => GetStep(c, p, d).after
    case Set(p, v, save) => SetStep(c, p, v, save)
    case Put(key, v, save) => c.(table := Saved(c.table, key, v, save))
  }

  /** The configuration after a sequence of calls, in order. */
  function Run(c: Config, ops: seq<Op>): Config
    decreases |ops|
  {
    if ops == [] then c else Run(Apply(c, ops[0]), ops[1..])
  }

  predicate SetsSlot(op: Op, p: Prop) {
    op.Set? && op.p == p
  }

  predicate MentionsSlot(op: Op, p: Prop) {
    (op.Get? || op.Set?) && op.p == p
  }

  /** Whether a call records a payload under key in the table. */
  predicate StoresKey(op: Op, key: string) {
    match op
    case Get(_, _) => false
    case Set(q, _, save) => save && Name(q) == key
    case Put(k, _, save) => save && k == key
  }

  // ---------------------------------------------------------------------
  // One call at a time

  /** A getter on a filled slot ignores its default, does not consult the
      table and changes nothing; a second read right after a first returns
      the same value and leaves the same state. */
  lemma GetIdempotent(c: Config, p: Prop, d1: Value, d2: Value)
    ensures GetStep(GetStep(c, p, d1).after, p, d2) == GetStep(c, p, d1)
  {
  }

  /** With no row under the property's name and an empty slot, the getter
      returns its default, and with no argument the declared default. */
  lemma GetOnEmptyReturnsDefault(c: Config, p: Prop, d: Value)
    requires p !in c.slots && Name(p) !in c.table
    requires d.KindOf() == DeclaredKind(p)
    ensures GetStep(c, p, d).value == d
    ensures GetStep(c, p, DeclaredDefault(p)).value == DeclaredDefault(p)
  {
  }

  /** A call that does not name a property leaves its slot alone. */
  lemma ApplyKeepsOtherSlot(c: Config, op: Op, q: Prop)
    requires !MentionsSlot(op, q)
    ensures SlotOf(Apply(c, op), q) == SlotOf(c, q)
  {
  }

  // ---------------------------------------------------------------------
  // Sequences of calls

  /** A slot no call names keeps whatever it held, filled or empty: each
      property owns its own slot. */
  lemma {:induction false} RunKeepsUnmentionedSlot(c: Config, ops: seq<Op>, q: Prop)
    requires forall i | 0 <= i < |ops| :: !MentionsSlot(ops[i], q)
    ensures SlotOf(Run(c, ops), q) == SlotOf(c, q)
    decreases |ops|
  {
    if ops != [] {
      ApplyKeepsOtherSlot(c, ops[0], q);
      assert forall i | 0 <= i < |ops[1..]| :: ops[1..][i] == ops[i + 1];
      RunKeepsUnmentionedSlot(Apply(c, ops[0]), ops[1..], q);
    }
  }

  /** Once filled, a slot is never refreshed: reads of the property and any
      writes to the table (its own key included) leave it as it is; only the
      property's setter replaces it. */
  lemma {:induction false} FilledSlotNeverRefreshed(c: Config, ops: seq<Op>, p: Prop)
    requires p in c.slots
    requires forall i | 0 <= i < |ops| :: !SetsSlot(ops[i], p)
    ensures SlotOf(Run(c, ops), p) == SlotOf(c, p)
    decreases |ops|
  {
    if ops != [] {
      assert SlotOf(Apply(c, ops[0]), p) == SlotOf(c, p);
      assert forall i | 0 <= i < |ops[1..]| :: ops[1..][i] == ops[i + 1];
      FilledSlotNeverRefreshed(Apply(c, ops[0]), ops[1..], p);
    }
  }

  /** The default of the first read is the only one that matters: every
      later read returns what the first one returned, whatever its own
      default and whatever was written to the table meanwhile, until the
      property's setter is called. */
  lemma {:induction false} DefaultIgnoredAfterFirstRead(c: Config, p: Prop, d0: Value, ops: seq<Op>, d: Value)
    requires forall i | 0 <= i < |ops| :: !SetsSlot(ops[i], p)
    ensures GetStep(Run(GetStep(c, p, d0).after, ops), p, d).value == GetStep(c, p, d0).value
  {
    FilledSlotNeverRefreshed(GetStep(c, p, d0).after, ops, p);
  }

  /** After the setter, every read returns the value set, for any default,
      whether or not it was saved, and whatever other calls come between,
      until the property's setter is called again. */
  lemma {:induction false} ReadAfterSet(c: Config, p: Prop, v: Value, save: bool, ops: seq<Op>, d: Value)
    requires v.KindOf() == DeclaredKind(p)
    requires forall i | 0 <= i < |ops| :: !SetsSlot(ops[i], p)
    ensures GetStep(Run(SetStep(c, p, v, save), ops), p, d).value == v
  {
    FilledSlotNeverRefreshed(SetStep(c, p, v, save), ops, p);
  }

  /** Reads never write the table. */
  lemma {:induction false} ReadsLeaveTable(c: Config, ops: seq<Op>)
    requires forall i | 0 <= i < |ops| :: ops[i].Get?
    ensures Run(c, ops).table == c.table
    decreases |ops|
  {
    if ops != [] {
      assert forall i | 0 <= i < |ops[1..]| :: ops[1..][i] == ops[i + 1];
      ReadsLeaveTable(Apply(c, ops[0]), ops[1..]);
    }
  }

  /** A key that no call stores under keeps its row, or its absence. */
  lemma {:induction false} RunKeepsUnstoredKey(c: Config, ops: seq<Op>, key: string, d: Variant)
    requires forall i | 0 <= i < |ops| :: !StoresKey(ops[i], key)
    ensures Lookup(Run(c, ops).table, key, d) == Lookup(c.table, key, d)
    decreases |ops|
  {
    if ops != [] {
      assert Lookup(Apply(c, ops[0]).table, key, d) == Lookup(c.table, key, d);
      assert forall i | 0 <= i < |ops[1..]| :: ops[1..][i] == ops[i + 1];
      RunKeepsUnstoredKey(Apply(c, ops[0]), ops[1..], key, d);
    }
  }

  /** A saved write outlives the profile: a new profile over the same table,
      with every slot empty, reads the value back, as long as later calls do
      not save under the same key. Other properties' setters never do,
      because their keys differ. */
  lemma {:induction false} SavedSetSurvivesRestart(c: Config, p: Prop, v: Value, ops: seq<Op>, d: Value)
    requires v.KindOf() == DeclaredKind(p)
    requires forall i | 0 <= i < |ops| :: !(ops[i].Set? && ops[i].p == p && ops[i].save)
    requires forall i | 0 <= i < |ops| :: !(ops[i].Put? && ops[i].key == Name(p) && ops[i].save)
    ensures GetStep(Config(map[], Run(SetStep(c, p, v, true), ops).table), p, d).value == v
  {
    forall i | 0 <= i < |ops|
      ensures !StoresKey(ops[i], Name(p))
    {
      if ops[i].Set? {
        NamesDistinct(ops[i].p, p);
      }
    }
    RunKeepsUnstoredKey(SetStep(c, p, v, true), ops, Name(p), Some(d));
  }

  /** An unsaved write does not outlive the profile: a new profile over the
      table reads what it would have read before the write. */
  lemma UnsavedSetIsTransient(c: Config, p: Prop, v: Value, d: Value)
    ensures GetStep(Config(map[], SetStep(c, p, v, false).table), p, d)
         == GetStep(Config(map[], c.table), p, d)
  {
  }
}
