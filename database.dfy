/** What the relational engine behind the ORM contributes to the handlers'
    behaviour: the integer type affinity of INTEGER columns and the rowid
    that an INTEGER PRIMARY KEY receives on insertion. */
module Database {

  /** The value held by (or compared against) an INTEGER column once SQLite's
      integer affinity has been applied: text that reads as an integer literal
      becomes that integer, any other text is kept as text. */
  datatype Key = Int(n: int) | Text(s: string)

  predicate IsDigit(c: char) {
    '0' <= c <= '9'
  }

  predicate AllDigits(s: string) {
    forall i :: 0 <= i < |s| ==> IsDigit(s[i])
  }

  /** An optional sign followed by at least one decimal digit. */
  predicate IsIntegerLiteral(s: string) {
    if |s| > 0 && (s[0] == '+' || s[0] == '-') then |s| > 1 && AllDigits(s[1..])
    else |s| > 0 && AllDigits(s)
  }

  function DigitValue(c: char): nat
    requires IsDigit(c)
  {
    c as int - '0' as int
  }

  function DigitChar(d: nat): (c: char)
    requires d < 10
    ensures IsDigit(c) && DigitValue(c) == d
  {
    ('0' as int + d) as char
  }

  /** The value of a run of decimal digits, most significant first. */
  function DigitsValue(s: string): nat
    requires AllDigits(s)
    decreases |s|
  {
    if s == [] then 0 else DigitsValue(s[..|s| - 1]) * 10 + DigitValue(s[|s| - 1])
  }

  function LiteralValue(s: string): int
    requires IsIntegerLiteral(s)
  {
    if s[0] == '-' then -(DigitsValue(s[1..]) as int)
    else if s[0] == '+' then DigitsValue(s[1..])
    else DigitsValue(s)
  }

  /** Integer affinity applied to a text value bound for an INTEGER column. */
  function Affinity(s: string): (k: Key)
    ensures k.Int? <==> IsIntegerLiteral(s)
    ensures k.Text? ==> k.s == s
  {
    if IsIntegerLiteral(s) then Int(LiteralValue(s)) else Text(s)
  }

  /** Decimal rendering of a natural number, as Python's `str` writes it. */
  function ShowNat(n: nat): string
    decreases n
  {
    if n < 10 then [DigitChar(n)] else ShowNat(n / 10) + [DigitChar(n % 10)]
  }

  /** Decimal rendering of an integer, as Python's `str` writes it (how a client
      puts a user id into a query string). */
  function ShowInt(n: int): string {
    if n < 0 then "-" + ShowNat(-n) else ShowNat(n)
  }

  lemma {:induction false} ShowNatReadsBack(n: nat)
    ensures |ShowNat(n)| > 0 && AllDigits(ShowNat(n))
    ensures DigitsValue(ShowNat(n)) == n
    decreases n
  {
    if n >= 10 {
      ShowNatReadsBack(n / 10);
      var s := ShowNat(n);
      assert s[..|s| - 1] == ShowNat(n / 10);
    }
  }

  /** A user id written into a query string or form field by a client is read
      back by the INTEGER column as that same id. */
  lemma AffinityOfShowInt(n: int)
    ensures Affinity(ShowInt(n)) == Int(n)
  {
    if n < 0 {
      ShowNatReadsBack(-n);
      assert ShowInt(n)[1..] == ShowNat(-n);
    } else {
      ShowNatReadsBack(n);
    }
  }

  /** Largest element of a non-empty sequence. */
  function MaxOf(s: seq<int>): (m: int)
    requires |s| > 0
    ensures m in s
    ensures forall i :: 0 <= i < |s| ==> s[i] <= m
  {
    if |s| == 1 then s[0]
    else
      var rest := MaxOf(s[1..]);
      if s[0] >= rest then s[0] else rest
  }

  /** The rowid SQLite gives a new row of a table whose rows are never deleted:
      1 for an empty table, otherwise one more than the largest rowid in use. */
  function NextRowId(ids: seq<int>): (r: int)
    ensures forall i :: 0 <= i < |ids| ==> ids[i] < r
    ensures |ids| == 0 ==> r == 1
    ensures |ids| > 0 ==> r - 1 in ids
  {
    if |ids| == 0 then 1 else MaxOf(ids) + 1
  }

  /** No two positions hold the same value (a primary key or UNIQUE column). */
  predicate Distinct<T(==)>(s: seq<T>) {
    forall i, j :: 0 <= i < j < |s| ==> s[i] != s[j]
  }
}
