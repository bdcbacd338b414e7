/** A profile object: one cache slot per declared property over the backing
    table, the generated getter and setter of each property, and the generic
    operations on the table that they forward to. */
module Profiles {
  import opened Values
  import opened Properties
  import opened BackingStore
  import PropertyCache

  /** A call a profile makes on its backing table. */
  datatype StoreCall =
    | ValueCall(key: string, d: Variant)
    | SetValueCall(key: string, v: Value, save: bool)
    | Value2Call(key: string, defaultKey: string, d: Variant)

  class Profile {
    // One slot per property; the invalid variant until first read or write.
    var statimSamplePrefix: Variant
    var qcSamplePrefix: Variant
    var caliSamplePrefix: Variant
    var simuSamplePrefix: Variant
    var resultIsPreparing: Variant
    var resultCanNotBeCalculated: Variant
    var lowerReportLimitFlag: Variant
    var upperReportLimitFlag: Variant
    var lowerMarkLimitFlag: Variant
    var upperMarkLimitFlag: Variant
    var manualInputFlag: Variant
    var colorOfWaiting: Variant
    var colorOfReading: Variant
    var colorOfAnalysing: Variant
    var colorOfNullResult: Variant
    var analysisDisplayAssay: Variant
    var maxQcFile: Variant
    var qcMethod: Variant
    var corporation: Variant
    var isTouchScreen: Variant

    /** The backing table. */
    var table: Table
    /** The calls made on the backing table so far, in order. */
    ghost var calls: seq<StoreCall>

    /** A profile over a table that already holds persisted rows; no slot is filled. */
    constructor (persisted: Table)
      ensures forall p :: Slot(p) == None
      ensures table == persisted && calls == []
    {
      statimSamplePrefix := None;
      qcSamplePrefix := None;
      caliSamplePrefix := None;
      simuSamplePrefix := None;
      resultIsPreparing := None;
      resultCanNotBeCalculated := None;
      lowerReportLimitFlag := None;
      upperReportLimitFlag := None;
      lowerMarkLimitFlag := None;
      upperMarkLimitFlag := None;
      manualInputFlag := None;
      colorOfWaiting := None;
      colorOfReading := None;
      colorOfAnalysing := None;
      colorOfNullResult := None;
      analysisDisplayAssay := None;
      maxQcFile := None;
      qcMethod := None;
      corporation := None;
      isTouchScreen := None;
      table := persisted;
      calls := [];
    }

    /** The slot that belongs to a property. */
    function Slot(p: Prop): Variant
      reads this
    {
      match p
      case StatimSamplePrefix => statimSamplePrefix
      case QcSamplePrefix => qcSamplePrefix
      case CaliSamplePrefix => caliSamplePrefix
      case SimuSamplePrefix => simuSamplePrefix
      case ResultIsPreparing => resultIsPreparing
      case ResultCanNotBeCalculated => resultCanNotBeCalculated
      case LowerReportLimitFlag => lowerReportLimitFlag
      case UpperReportLimitFlag => upperReportLimitFlag
      case LowerMarkLimitFlag => lowerMarkLimitFlag
      case UpperMarkLimitFlag => upperMarkLimitFlag
      case ManualInputFlag => manualInputFlag
      case ColorOfWaiting => colorOfWaiting
      case ColorOfReading => colorOfReading
      case ColorOfAnalysing => colorOfAnalysing
      case ColorOfNullResult => colorOfNullResult
      case AnalysisDisplayAssay => analysisDisplayAssay
      case MaxQcFile => maxQcFile
      case QcMethod => qcMethod
      case Corporation => corporation
      case IsTouchScreen => isTouchScreen
    }

    /** The abstract state: the filled slots and the table. */
    ghost function Model(): PropertyCache.Config
      reads this
    {
      PropertyCache.Config(map p | p in AllProps && Slot(p).Some? :: Slot(p).value, table)
    }

    /** Assigning a property's own slot, as each accessor does. */
    method StoreSlot(p: Prop, x: Variant)
      modifies this
      ensures Slot(p) == x
      ensures forall q :: q != p ==> Slot(q) == old(Slot(q))
      ensures table == old(table) && calls == old(calls)
    {
      match p
      case StatimSamplePrefix => statimSamplePrefix := x;
      case QcSamplePrefix => qcSamplePrefix := x;
      case CaliSamplePrefix => caliSamplePrefix := x;
      case SimuSamplePrefix => simuSamplePrefix := x;
      case ResultIsPreparing => resultIsPreparing := x;
      case ResultCanNotBeCalculated => resultCanNotBeCalculated := x;
      case LowerReportLimitFlag => lowerReportLimitFlag := x;
      case UpperReportLimitFlag => upperReportLimitFlag := x;
      case LowerMarkLimitFlag => lowerMarkLimitFlag := x;
      case UpperMarkLimitFlag => upperMarkLimitFlag := x;
      case ManualInputFlag => manualInputFlag := x;
      case ColorOfWaiting => colorOfWaiting := x;
      case ColorOfReading => colorOfReading := x;
      case ColorOfAnalysing => colorOfAnalysing := x;
      case ColorOfNullResult => colorOfNullResult := x;
      case AnalysisDisplayAssay => analysisDisplayAssay := x;
      case MaxQcFile => maxQcFile := x;
      case QcMethod => qcMethod := x;
      case Corporation => corporation := x;
      case IsTouchScreen => isTouchScreen := x;
    }

    /** Reading a key, with a default for a missing row; the table is not written. */
    method ValueOf(key: string, d: Variant) returns (r: Variant)
      modifies this`calls
      ensures r == Lookup(table, key, d)
      ensures calls == old(calls) + [ValueCall(key, d)]
    {
      r := Lookup(table, key, d);
      calls := calls + [ValueCall(key, d)];
    }

    /** Reading a key at a static kind, with the invalid variant as default. */
    method ValueAs(key: string, k: Kind) returns (r: Value)
      modifies this`calls
      ensures r == LookupAs(table, key, k)
      ensures calls == old(calls) + [ValueCall(key, None)]
    {
      var x := ValueOf(key, None);
      r := Convert(x, k);
    }

    /** Reading a key, falling back to another key, then to a default. */
    method Value2(key: string, defaultKey: string, d: Variant) returns (r: Variant)
      modifies this`calls
      ensures r == LookupFallback(table, key, defaultKey, d)
      ensures calls == old(calls) + [Value2Call(key, defaultKey, d)]
    {
      r := LookupFallback(table, key, defaultKey, d);
      calls := calls + [Value2Call(key, defaultKey, d)];
    }

    /** Writing a key; the row is recorded only when save holds. */
    method SetValue(key: string, v: Value, save: bool)
      modifies this`table, this`calls
      ensures table == Saved(old(table), key, v, save)
      ensures calls == old(calls) + [SetValueCall(key, v, save)]
    {
      if save {
        table := table[key := v];
      }
      calls := calls + [SetValueCall(key, v, save)];
    }

    /** The getter of a property. On an empty slot it fills the slot with the
        table's value under the property's name, or the default if there is
        none; on a filled slot it ignores the default, does not consult the
        table and changes nothing. Either way it returns the slot read back
        at the property's declared kind. */
    method Get(p: Prop, d: Value) returns (r: Value)
      requires d.KindOf() == DeclaredKind(p)
      modifies this
      ensures r.KindOf() == DeclaredKind(p)
      ensures r == Convert(Slot(p), DeclaredKind(p))
      ensures old(Slot(p)).Some? ==> unchanged(this)
      ensures old(Slot(p)).None? ==>
        Slot(p) == Lookup(table, Name(p), Some(d)) && calls == old(calls) + [ValueCall(Name(p), Some(d))]
      ensures table == old(table)
      ensures forall q :: q != p ==> Slot(q) == old(Slot(q))
      ensures Model() == PropertyCache.GetStep(old(Model()), p, d).after
      ensures r == PropertyCache.GetStep(old(Model()), p, d).value
    {
      if Slot(p).None? {
        var x := ValueOf(Name(p), Some(d));
        StoreSlot(p, x);
      }
      r := Convert(Slot(p), DeclaredKind(p));
    }

    /** The getter called with no argument: the declared default stands in. */
    method GetDeclaredDefault(p: Prop) returns (r: Value)
      modifies this
      ensures r.KindOf() == DeclaredKind(p)
      ensures r == Convert(Slot(p), DeclaredKind(p))
      ensures old(Slot(p)).None? && Name(p) !in old(table) ==> r == DeclaredDefault(p)
      ensures old(Slot(p)).Some? ==> r == Convert(old(Slot(p)), DeclaredKind(p)) && unchanged(this)
      ensures old(Slot(p)).None? ==>
        Slot(p) == Lookup(old(table), Name(p), Some(DeclaredDefault(p)))
        && calls == old(calls) + [ValueCall(Name(p), Some(DeclaredDefault(p)))]
      ensures table == old(table)
      ensures forall q :: q != p ==> Slot(q) == old(Slot(q))
    {
      r := Get(p, DeclaredDefault(p));
    }

    /** The setter of a property: the slot takes v whatever save is, and
        exactly one write goes to the table, under the property's name, with
        the same value and the same save flag. */
    method Set(p: Prop, v: Value, save: bool)
      requires v.KindOf() == DeclaredKind(p)
      modifies this
      ensures Slot(p) == Some(v)
      ensures forall q :: q != p ==> Slot(q) == old(Slot(q))
      ensures table == Saved(old(table), Name(p), v, save)
      ensures calls == old(calls) + [SetValueCall(Name(p), v, save)]
      ensures Model() == PropertyCache.SetStep(old(Model()), p, v, save)
    {
      StoreSlot(p, Some(v));
      SetValue(Name(p), v, save);
    }
  }

  /** A profile over an empty table answers argument-less getters with the
      declared defaults. */
  method FreshProfileDefaults() returns (prefix: Value, maxQc: Value, qcRule: Value, touch: Value)
    ensures prefix == Str("S") && maxQc == Int(10) && qcRule == Int(0) && touch == Bool(false)
  {
    var profile := new Profile(map[]);
    prefix := profile.GetDeclaredDefault(StatimSamplePrefix);
    maxQc := profile.GetDeclaredDefault(MaxQcFile);
    qcRule := profile.GetDeclaredDefault(QcMethod);
    touch := profile.GetDeclaredDefault(IsTouchScreen);
  }

  /** What the setter stores is what the getter returns next, whatever its
      default, whether or not the write was saved. The first read fills the
      slot, so the setter overwrites a filled slot. */
  method SetThenGet(persisted: Table, v: string, d: string, save: bool) returns (r: Value)
    ensures r == Str(v)
  {
    var profile := new Profile(persisted);
    var filled := profile.GetDeclaredDefault(QcSamplePrefix);
    profile.Set(QcSamplePrefix, Str(v), save);
    r := profile.Get(QcSamplePrefix, Str(d));
  }

  /** A slot filled by a first read keeps the default of that read even after
      a row is written under the property's name through the generic
      interface: the table then holds one value and the getter returns
      another. */
  method StaleAfterDirectWrite(first: string, second: string) returns (cached: Value, stored: Variant)
    ensures cached == Str(first) && stored == Some(Str(second))
  {
    var profile := new Profile(map[]);
    var initial := profile.Get(StatimSamplePrefix, Str(first));
    profile.SetValue(Name(StatimSamplePrefix), Str(second), true);
    cached := profile.Get(StatimSamplePrefix, Str(second));
    stored := profile.ValueOf(Name(StatimSamplePrefix), None);
  }
}
