/** Values that travel on the wire, shared by both server variants: optional
    values, the inbound JSON envelope as the router sees it, JavaScript's
    `value || fallback` idiom on string fields, and decimal rendering of
    counters and clocks. */
module Wire {

  datatype Option<+T> = None | Some(value: T)

  /** One inbound text frame after `JSON.parse`.  `Unparsable` is a frame the
      parser rejected (or whose top-level value is `null`, so that reading
      `.type` throws); `reason` is the exception's message.  An `Envelope`
      carries the `type` field (absent when the client sent none), the string
      fields of the object by name, and the truthiness of `isTyping`. */
  datatype Frame =
    | Unparsable(reason: string)
    | Envelope(kind: Option<string>, fields: map<string, string>, isTyping: bool)

  /** JavaScript truthiness of a string field: present and not empty. */
  predicate Truthy(fields: map<string, string>, key: string)
  {
    key in fields && fields[key] != ""
  }

  /** `data[key]` for a string field: `undefined` when it is absent. */
  function Field(fields: map<string, string>, key: string): Option<string>
  {
    if key in fields then Some(fields[key]) else None
  }

  /** `data[key] || fallback` for a string field. */
  function OrElse(fields: map<string, string>, key: string, fallback: string): string
  {
    if Truthy(fields, key) then fields[key] else fallback
  }

  /** `data[key] || fallback` keeps the fallback exactly when the field does
      not supply a different non-empty value. */
  lemma OrElseKeeps(fields: map<string, string>, key: string, fallback: string)
    ensures OrElse(fields, key, fallback) == fallback
            <==> (!Truthy(fields, key) || fields[key] == fallback)
  {
  }

  /** How a template literal renders a possibly absent value. */
  function Show(v: Option<string>): string
  {
    match v
    case Some(s) => s
    case None => "undefined"
  }

  function Digit(d: nat): char
    requires d < 10
  {
    ('0' as int + d) as char
  }

  predicate IsDigits(s: string)
  {
    forall i :: 0 <= i < |s| ==> '0' <= s[i] <= '9'
  }

  /** The number a string of decimal digits stands for. */
  function DecimalValue(s: string): nat
    requires IsDigits(s)
    decreases |s|
  {
    if s == [] then 0
    else DecimalValue(s[..|s| - 1]) * 10 + (s[|s| - 1] as int - '0' as int)
  }

  /** Decimal rendering of a natural number, as `${n}` does: it reads back
      as `n` and has no leading zero. */
  function NatToString(n: nat): (s: string)
    ensures |s| >= 1 && IsDigits(s)
    ensures DecimalValue(s) == n
    ensures |s| > 1 ==> s[0] != '0'
    decreases n
  {
    if n < 10 then [Digit(n)]
    else
      var high := NatToString(n / 10);
      var s := high + [Digit(n % 10)];
      assert s[..|s| - 1] == high;
      assert |high| == 1 ==> high[..0] == [] && DecimalValue(high) == high[0] as int - '0' as int;
      s
  }

  /** Distinct numbers behind the same prefix give distinct strings: two
      counters never render as the same `Usuário_<n>` or `sys_<n>`. */
  lemma PrefixedDistinct(p: string, a: nat, b: nat)
    requires a != b
    ensures p + NatToString(a) != p + NatToString(b)
  {
    assert (p + NatToString(a))[|p|..] == NatToString(a);
    assert (p + NatToString(b))[|p|..] == NatToString(b);
  }
}
