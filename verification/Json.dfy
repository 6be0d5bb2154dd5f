/** JSON values as serde_json holds them, and the error type of the blob core. */
module Json {
  import opened Text

  /** An object is its entries in key order, as a BTreeMap iterates them; a number is its printed form. */
  datatype Value =
    | Null
    | Bool(flag: bool)
    | Number(printed: string)
    | String(text: string)
    | Array(items: seq<Value>)
    | Object(entries: seq<Entry>)

  datatype Entry = Entry(key: string, value: Value)

  predicate Present(v: Value) {
    match v
    case Null => false
    case String(s) => !Blank(s)
    case Array(items) => items != []
    case Object(entries) => entries != []
    case Bool(_) => true
    case Number(_) => true
  }

  /** A present value is neither null nor blank nor an empty list or object. */
  predicate HoldsSomething(v: Value) {
    !v.Null? && (v.String? ==> Trim(v.text) != "") && (v.Array? ==> v.items != []) && (v.Object? ==> v.entries != [])
  }

  lemma PresentHoldsSomething(v: Value)
    ensures Present(v) <==> HoldsSomething(v)
  {
    hide Trim;
  }

  function BoolText(b: bool): string {
    if b then "true" else "false"
  }

  function Decimal(n: nat): string {
    var digit := "0123456789"[n % 10];
    if n < 10 then [digit] else Decimal(n / 10) + [digit]
  }

  function NatValue(n: nat): Value {
    Number(Decimal(n))
  }

  function TextArray(ss: seq<string>): Value {
    Array(seq(|ss|, i requires 0 <= i < |ss| => String(ss[i])))
  }

  /** The error enumeration of the blob core; configuration errors carry a reason instead of a message. */
  datatype BlobError =
    | Configuration(reason: Reason)
    | Upstream(text: string)
    | InteractiveInputRequired(text: string)
    | NotImplemented(text: string)
    | NotFound(text: string)
    | BodyStream(text: string)

  datatype Reason =
      // the static check of a catalog
    | UnsupportedSchema
    | BlankField(field: string)
    | EmptyCatalog(field: string)
    | DuplicateId(kind: string, id: string)
    | InvalidPage(id: string)
    | InvalidElement(id: string)
    | InvalidRequest(id: string)
    | InvalidOperation(id: string)
    | InvalidFlow(id: string)
    | InvalidFlowPart(flow: string, part: string)
    | PrerequisiteCycle(flow: string, at: string)
      // templates and binding
    | UnterminatedTemplate(raw: string)
    | UnsupportedReference(token: string)
    | MissingKey(token: string)
    | UnsupportedNamespace(token: string)
    | MissingValue(token: string)
    | NullTemplate(token: string)
    | NonScalarTemplate(token: string)
    | MissingInput(id: string)
    | BlankInput(id: string)
    | UnknownPreset(id: string)
      // execution
    | BadFilePaths(input: string)
    | MissingBoundReference(kind: string, id: string)
    | Other(text: string)
}
