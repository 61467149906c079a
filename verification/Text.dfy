/** The string and number routines of Go's standard library that the plugin's
    decisions rest on: strings.Split/TrimSpace/ToLower, strconv.Atoi/Itoa/ParseBool
    with 64-bit range checks, and the quoted scalars of encoding/json. */
module Text {
  import opened Wrappers

  const MIN_INT64 := -0x8000_0000_0000_0000
  const MAX_INT64 := 0x7fff_ffff_ffff_ffff

  predicate InInt64(i: int) {
    MIN_INT64 <= i <= MAX_INT64
  }

  type Int64 = i: int | InInt64(i)

  // ---------------------------------------------------------------- affixes

  predicate HasPrefix(s: string, prefix: string) {
    prefix <= s
  }

  predicate HasSuffix(s: string, suffix: string) {
    |suffix| <= |s| && s[|s| - |suffix|..] == suffix
  }

  function TrimPrefix(s: string, prefix: string): string {
    if HasPrefix(s, prefix) then s[|prefix|..] else s
  }

  function TrimSuffix(s: string, suffix: string): string {
    if HasSuffix(s, suffix) then s[..|s| - |suffix|] else s
  }

  predicate HasScheme(url: string) {
    HasPrefix(url, "https://") || HasPrefix(url, "http://")
  }

  lemma SchemeIff(url: string)
    ensures HasScheme(url) <==>
              (|url| >= 8 && url[..8] == "https://") || (|url| >= 7 && url[..7] == "http://")
  {
  }

  predicate Contains(s: string, part: string) {
    exists i :: 0 <= i <= |s| && part <= s[i..]
  }

  // ---------------------------------------------------------------- white space and case

  predicate IsSpace(c: char) {
    c in "\t\n\r \U{B}\U{C}\U{85}\U{A0}\U{1680}\U{2028}\U{2029}\U{202F}\U{205F}\U{3000}"
      || '\U{2000}' <= c <= '\U{200A}'
  }

  function TrimLeft(s: string): string {
    if s != "" && IsSpace(s[0]) then TrimLeft(s[1..]) else s
  }

  function TrimRight(s: string): string {
    if s != "" && IsSpace(s[|s| - 1]) then TrimRight(s[..|s| - 1]) else s
  }

  function TrimSpace(s: string): string {
    TrimRight(TrimLeft(s))
  }

  /** ASCII lower-casing; the plugin only compares the result with ASCII literals. */
  function ToLower(s: string): string {
    seq(|s|, i requires 0 <= i < |s| => if 'A' <= s[i] <= 'Z' then ((s[i] as int) + 32) as char else s[i])
  }

  /** Only white space goes, all of it, and only at the two ends. */
  lemma TrimmedEnds(s: string) returns (i: nat, j: nat)
    ensures i <= j <= |s| && TrimSpace(s) == s[i..j]
    ensures forall k :: 0 <= k < i || j <= k < |s| ==> IsSpace(s[k])
    ensures i < j ==> !IsSpace(s[i]) && !IsSpace(s[j - 1])
  {
    i := TrimmedLeft(s);
    var length := TrimmedRight(s[i..]);
    j := i + length;
    assert s[i..][..length] == s[i..j];
    forall k | j <= k < |s|
      ensures IsSpace(s[k])
    {
      assert s[k] == s[i..][k - i];
    }
  }

  lemma {:induction false} TrimmedLeft(s: string) returns (i: nat)
    ensures i <= |s| && TrimLeft(s) == s[i..]
    ensures forall k :: 0 <= k < i ==> IsSpace(s[k])
    ensures i < |s| ==> !IsSpace(s[i])
  {
    if s != "" && IsSpace(s[0]) {
      var rest := TrimmedLeft(s[1..]);
      i := rest + 1;
      assert s[1..][rest..] == s[i..];
      assert forall k :: 0 < k < i ==> s[k] == s[1..][k - 1];
    } else {
      i := 0;
    }
  }

  lemma {:induction false} TrimmedRight(s: string) returns (j: nat)
    ensures j <= |s| && TrimRight(s) == s[..j]
    ensures forall k :: j <= k < |s| ==> IsSpace(s[k])
    ensures j > 0 ==> !IsSpace(s[j - 1])
  {
    if s != "" && IsSpace(s[|s| - 1]) {
      j := TrimmedRight(s[..|s| - 1]);
      assert s[..|s| - 1][..j] == s[..j];
      assert forall k :: j <= k < |s| - 1 ==> s[k] == s[..|s| - 1][k];
    } else {
      j := |s|;
    }
  }

  // ---------------------------------------------------------------- splitting

  function Split(s: string, sep: char): (parts: seq<string>)
    ensures parts != []
  {
    if s == "" then [""]
    else
      var rest := Split(s[1..], sep);
      if s[0] == sep then [""] + rest else [[s[0]] + rest[0]] + rest[1..]
  }

  function Join(parts: seq<string>, sep: char): string
    requires parts != []
  {
    if |parts| == 1 then parts[0] else parts[0] + [sep] + Join(parts[1..], sep)
  }

  function Count(s: string, c: char): nat {
    if s == "" then 0 else (if s[0] == c then 1 else 0) + Count(s[1..], c)
  }

  /** Splitting loses nothing: the parts rejoin to the input, there is one part more
      than there are separators, and no part contains a separator. */
  lemma JoinPrepends(parts: seq<string>, sep: char, c: char)
    requires parts != []
    ensures Join([""] + parts, sep) == [sep] + Join(parts, sep)
    ensures Join([[c] + parts[0]] + parts[1..], sep) == [c] + Join(parts, sep)
  {
    assert ([""] + parts)[1..] == parts;
    assert ([[c] + parts[0]] + parts[1..])[1..] == parts[1..];
    if |parts| > 1 {
      assert ([c] + parts[0]) + [sep] + Join(parts[1..], sep) == [c] + (parts[0] + [sep] + Join(parts[1..], sep));
    }
  }

  lemma {:induction false} SplitRejoins(s: string, sep: char)
    ensures Join(Split(s, sep), sep) == s
  {
    if s != "" {
      SplitRejoins(s[1..], sep);
      JoinPrepends(Split(s[1..], sep), sep, s[0]);
    }
  }

  lemma {:induction false} SplitParts(s: string, sep: char)
    ensures |Split(s, sep)| == Count(s, sep) + 1
    ensures forall part :: part in Split(s, sep) ==> sep !in part
  {
    if s != "" {
      SplitParts(s[1..], sep);
      assert Split(s[1..], sep)[0] in Split(s[1..], sep);
    }
  }

  lemma SplitJoin(s: string, sep: char)
    ensures Join(Split(s, sep), sep) == s
    ensures |Split(s, sep)| == Count(s, sep) + 1
    ensures forall part :: part in Split(s, sep) ==> sep !in part
  {
    SplitRejoins(s, sep);
    SplitParts(s, sep);
  }

  // ---------------------------------------------------------------- decimal numbers

  predicate IsDigit(c: char) {
    '0' <= c <= '9'
  }

  predicate AllDigits(s: string) {
    forall i :: 0 <= i < |s| ==> IsDigit(s[i])
  }

  function Number(s: string): nat
    requires AllDigits(s)
  {
    if s == "" then 0 else 10 * Number(s[..|s| - 1]) + (s[|s| - 1] as int - '0' as int)
  }

  function Digits(n: nat): (s: string)
    ensures s != "" && AllDigits(s) && Number(s) == n
  {
    var last := [('0' as int + n % 10) as char];
    if n < 10 then last else
      var s := Digits(n / 10) + last;
      assert s[..|s| - 1] == Digits(n / 10);
      s
  }

  function Itoa(i: int): string {
    if i < 0 then "-" + Digits(-i) else Digits(i)
  }

  function Atoi(s: string): Option<Int64> {
    var body := if s != "" && s[0] in "+-" then s[1..] else s;
    if body == "" || !AllDigits(body) then None
    else
      var size: int := Number(body);
      var v := if s[0] == '-' then -size else size;
      if InInt64(v) then Some(v) else None
  }

  predicate IsInteger(s: string) {
    Atoi(s).Some?
  }

  lemma AtoiItoa(i: int)
    requires InInt64(i)
    ensures Atoi(Itoa(i)) == Some(i)
    ensures Itoa(i) != "" && (Itoa(i)[0] == '-' || IsDigit(Itoa(i)[0]))
  {
    if i < 0 {
      assert Itoa(i)[1..] == Digits(-i);
    } else {
      assert IsDigit(Digits(i)[0]);
    }
  }

  /** Atoi reads an optional sign and at least one digit, if the value fits 64 bits. */
  lemma AtoiReads(sign: string, digits: string)
    requires sign in ["", "+", "-"] && digits != "" && AllDigits(digits)
    ensures var size: int := Number(digits);
            var v := if sign == "-" then -size else size;
            Atoi(sign + digits) == if InInt64(v) then Some(v) else None
  {
    if sign == "" {
      assert sign + digits == digits;
      assert IsDigit(digits[0]);
    } else {
      assert (sign + digits)[1..] == digits;
    }
  }

  /** And it reads nothing else. */
  lemma AtoiNeeds(s: string) returns (sign: string, digits: string)
    requires Atoi(s).Some?
    ensures sign in ["", "+", "-"] && digits != "" && AllDigits(digits) && s == sign + digits
  {
    if s[0] in "+-" {
      sign, digits := [s[0]], s[1..];
    } else {
      sign, digits := "", s;
    }
  }

  /** Decimal texts have no leading zeros. */
  lemma {:induction false} NoLeadingZero(n: nat)
    requires n > 0
    ensures Digits(n)[0] != '0'
  {
    if n >= 10 {
      NoLeadingZero(n / 10);
    }
  }

  // ---------------------------------------------------------------- booleans

  predicate IsBool(s: string) {
    s in ["1", "t", "T", "TRUE", "true", "True", "0", "f", "F", "FALSE", "false", "False"]
  }

  /** The readings ParseBool gives the value true. */
  predicate MeansTrue(s: string) {
    s in ["1", "t", "T", "TRUE", "true", "True"]
  }

  /** The readings ParseBool gives the value false. */
  predicate MeansFalse(s: string) {
    s in ["0", "f", "F", "FALSE", "false", "False"]
  }

  /** ParseBool reads a text one way, the other, or not at all. */
  lemma BoolIff(s: string)
    ensures IsBool(s) <==> MeansTrue(s) || MeansFalse(s)
    ensures !(MeansTrue(s) && MeansFalse(s))
  {
  }

  function FormatBool(b: bool): string {
    if b then "true" else "false"
  }

  // ---------------------------------------------------------------- JSON scalars inside strings

  /** An int field tagged ",string": a JSON null literal leaves the field at zero, a
      leading "+" is not a JSON number, everything else is ParseInt in base 10. */
  function JsonInt(s: string): Option<Int64> {
    if s == "null" then Some(0)
    else if s == "" || s[0] == '+' then None
    else Atoi(s)
  }

  function JsonBool(s: string): Option<bool> {
    if s == "null" then Some(false)
    else if s == "true" then Some(true)
    else if s == "false" then Some(false)
    else None
  }

  // ---------------------------------------------------------------- optional settings

  function FirstOf(a: string, b: string): string {
    if a != "" then a else b
  }

  predicate BlankOrBool(s: string) {
    s == "" || IsBool(s)
  }

  predicate BlankOrInt(s: string) {
    s == "" || IsInteger(s)
  }

  predicate BlankOrAtLeast(s: string, least: int) {
    s == "" || (IsInteger(s) && Atoi(s).value >= least)
  }
}
