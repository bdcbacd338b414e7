/** The table of typed settings a profile declares: one entry per expansion
    of the accessor macro, each with its storage key (the property's own
    name), its declared static type and its declared default. */
module Properties {
  import opened Values

  datatype Prop =
    | StatimSamplePrefix | QcSamplePrefix | CaliSamplePrefix | SimuSamplePrefix
    | ResultIsPreparing | ResultCanNotBeCalculated
    | LowerReportLimitFlag | UpperReportLimitFlag | LowerMarkLimitFlag | UpperMarkLimitFlag
    | ManualInputFlag
    | ColorOfWaiting | ColorOfReading | ColorOfAnalysing | ColorOfNullResult
    | AnalysisDisplayAssay
    | MaxQcFile | QcMethod
    | Corporation
    | IsTouchScreen

  /** Every declared property. */
  const AllProps: set<Prop> := {
    StatimSamplePrefix, QcSamplePrefix, CaliSamplePrefix, SimuSamplePrefix,
    ResultIsPreparing, ResultCanNotBeCalculated,
    LowerReportLimitFlag, UpperReportLimitFlag, LowerMarkLimitFlag, UpperMarkLimitFlag,
    ManualInputFlag,
    ColorOfWaiting, ColorOfReading, ColorOfAnalysing, ColorOfNullResult,
    AnalysisDisplayAssay,
    MaxQcFile, QcMethod,
    Corporation,
    IsTouchScreen
  }

  /** The key under which a property is stored: its declared identifier,
      spelled out as a string. */
  function Name(p: Prop): string {
    match p
    case StatimSamplePrefix => "statim_sample_prefix"
    case QcSamplePrefix => "qc_sample_prefix"
    case CaliSamplePrefix => "cali_sample_prefix"
    case SimuSamplePrefix => "simu_sample_prefix"
    case ResultIsPreparing => "result_is_preparing"
    case ResultCanNotBeCalculated => "result_can_not_be_calculated"
    case LowerReportLimitFlag => "lower_report_limit_flag"
    case UpperReportLimitFlag => "upper_report_limit_flag"
    case LowerMarkLimitFlag => "lower_mark_limit_flag"
    case UpperMarkLimitFlag => "upper_mark_limit_flag"
    case ManualInputFlag => "manual_input_flag"
    case ColorOfWaiting => "color_of_waiting"
    case ColorOfReading => "color_of_reading"
    case ColorOfAnalysing => "color_of_analysing"
    case ColorOfNullResult => "color_of_null_result"
    case AnalysisDisplayAssay => "analysis_display_assay"
    case MaxQcFile => "max_qc_file"
    case QcMethod => "qc_method"
    case Corporation => "corporation"
    case IsTouchScreen => "is_touch_screen"
  }

  /** The static type each property is declared with. */
  function DeclaredKind(p: Prop): Kind {
    match p
    case ColorOfWaiting | ColorOfReading | ColorOfAnalysing | ColorOfNullResult => ColorKind
    case MaxQcFile | QcMethod => IntKind
    case IsTouchScreen => BoolKind
    case _ => StringKind
  }

  /** The default each property declares; it is the value its getter
      returns when called with no argument on an empty store. */
  function DeclaredDefault(p: Prop): (r: Value)
    ensures r.KindOf() == DeclaredKind(p)
  {
    match p
    case StatimSamplePrefix => Str("S")
    case QcSamplePrefix => Str("QC")
    case CaliSamplePrefix => Str("CA")
    case SimuSamplePrefix => Str("SI")
    case ResultIsPreparing => Str("***.*")
    case ResultCanNotBeCalculated => Str("---.-")
    case LowerReportLimitFlag => Str("<")
    case UpperReportLimitFlag => Str(">")
    case LowerMarkLimitFlag => Str("\U{2193}")
    case UpperMarkLimitFlag => Str("\U{2191}")
    case ManualInputFlag => Str("M")
    case ColorOfWaiting => ColorVal(Black)
    case ColorOfReading => ColorVal(DarkYellow)
    case ColorOfAnalysing => ColorVal(DarkBlue)
    case ColorOfNullResult => ColorVal(Red)
    case AnalysisDisplayAssay => Str("\U{5E8F}\U{53F7};\U{8F66}\U{578B};\U{8F66}\U{53F7};\U{91CD}\U{91CF};\U{901F}\U{5EA6};\U{65E5}\U{671F}")
    case MaxQcFile => Int(10)
    case QcMethod => Int(0)
    case Corporation => Str("Corporation Name")
    case IsTouchScreen => Bool(false)
  }

  /** Two different properties never share a storage key, so a write to one
      property's key never touches another's. */
  lemma NamesDistinct(p: Prop, q: Prop)
    ensures Name(p) == Name(q) ==> p == q
  {
  }
}
