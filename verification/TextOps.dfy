/** Text and address operations the evidence pipeline calls but does not define. They are arbitrary
    functions: no law of them is used. */
module TextOps {
  import opened Contracts
  import opened EvidenceContracts

  datatype TextOps = TextOps(
    strip: string -> string,
    casefold: string -> string,
    canonicalIp: string -> Option<string>,
    internal: string -> bool,
    render: Value -> string)
  {
    /** Addresses canonically, everything else case-folded, blank to blank. */
    function Normalize(value: string): string {
      var text := strip(value);
      if text == "" then ""
      else match canonicalIp(text)
        case Some(address) => address
        case None => casefold(text)
    }

    function Fold(value: string): string {
      casefold(strip(value))
    }

    /** The stripped text stored under `field`. */
    function Stripped(content: Content, field: Field): string {
      if field in content && content[field].Text? then strip(content[field].s) else ""
    }

    /** `str(value or "")`. */
    function Rendered(content: Content, field: Field): string {
      if field !in content || !Truthy(content[field]) then ""
      else match content[field]
        case Text(s) => s
        case other => render(other)
    }
  }

  predicate Truthy(v: Value) {
    match v
    case Null => false
    case Flag(b) => b
    case Number(n) => n != 0
    case Text(s) => s != ""
    case Items(xs) => xs != []
    case Object(fields) => fields != map[]
  }

  /** The `in` operator of strings. */
  predicate Contains(s: string, marker: string) {
    marker <= s || (s != "" && Contains(s[1..], marker))
  }
}
