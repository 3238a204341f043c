/** The query string of a list fetch, as the ordered key/value pairs handed to
    `URLSearchParams`, and the decimal rendering of the page number. */
module Query {
  import opened Options

  type Param = (string, string)

  const PageKey := "page"

  predicate IsDigit(c: char) {
    '0' <= c <= '9'
  }

  function Digit(d: int): (c: char)
    requires 0 <= d < 10
    ensures IsDigit(c)
  {
    (('0' as int) + d) as char
  }

  /** The decimal digits of `n`, most significant first, with no leading zero
      (what `Number.prototype.toString()` gives for a whole number below 10^21). */
  function Decimal(n: nat): (s: string)
    ensures |s| >= 1
    ensures forall i :: 0 <= i < |s| ==> IsDigit(s[i])
    ensures s[0] == '0' ==> n == 0
    decreases n
  {
    if n < 10 then [Digit(n)] else Decimal(n / 10) + [Digit(n % 10)]
  }

  /** The number a string of decimal digits denotes; `None` when a character is not a digit. */
  function ParseDecimal(s: string): Option<nat>
    decreases |s|
  {
    if s == [] then Some(0)
    else if !IsDigit(s[|s| - 1]) then None
    else match ParseDecimal(s[..|s| - 1])
      case None => None
      case Some(high) => Some(10 * high + (s[|s| - 1] as int - '0' as int))
  }

  /** Reading back a rendered page number gives the number. */
  lemma {:induction false} DecimalRoundTrip(n: nat)
    ensures ParseDecimal(Decimal(n)) == Some(n)
    decreases n
  {
    var s := Decimal(n);
    if n < 10 {
      assert s[..|s| - 1] == [];
    } else {
      DecimalRoundTrip(n / 10);
      assert s[..|s| - 1] == Decimal(n / 10);
    }
  }

  /** The value of the first pair whose key is `key`, as `URLSearchParams.get` reads it. */
  function Lookup(q: seq<Param>, key: string): Option<string>
    decreases |q|
  {
    if q == [] then None
    else if q[0].0 == key then Some(q[0].1)
    else Lookup(q[1..], key)
  }

  /** The parameters of a list fetch: the search filter under `key` when it is non-empty,
      then the page number when it is greater than 1. */
  function ListQuery(key: string, filter: string, page: int): (q: seq<Param>)
    requires key != PageKey
    ensures Lookup(q, key) == (if filter != "" then Some(filter) else None)
    ensures Lookup(q, PageKey) == (if page > 1 then Some(Decimal(page)) else None)
    ensures |q| == (if filter != "" then 1 else 0) + (if page > 1 then 1 else 0)
    ensures forall i :: 0 <= i < |q| ==> q[i].0 == key || q[i].0 == PageKey
    ensures forall i, j :: 0 <= i < |q| && 0 <= j < |q| && q[i].0 == key && q[j].0 == PageKey ==> i < j
  {
    (if filter != "" then [(key, filter)] else [])
    + (if page > 1 then [(PageKey, Decimal(page))] else [])
  }

  /** A reference decoding of the pairs, partner of `ListQuery`: the first value under each
      key, with a missing filter read as the empty filter and a missing or unreadable page
      read as page 1 (the default of the fetch thunks' own arguments). */
  function ReadListQuery(q: seq<Param>, key: string): (string, nat)
  {
    var filter := Lookup(q, key).GetOr("");
    var page := match Lookup(q, PageKey)
      case None => 1
      case Some(text) => ParseDecimal(text).GetOr(1);
    (filter, page)
  }

  /** The query carries the filter and the page: decoding it gives back the filter, and the
      page when it is above 1; pages 1 and below are sent as no page at all and decode as 1. */
  lemma ListQueryRoundTrip(key: string, filter: string, page: int)
    requires key != PageKey
    ensures ReadListQuery(ListQuery(key, filter, page), key) == (filter, if page > 1 then page else 1)
  {
    if page > 1 {
      DecimalRoundTrip(page);
    }
  }
}
