// The JavaScript string built-ins the parser relies on: `String.prototype.trim`,
// `split` on a one-character class, and `String(n)` for a non-negative integer.

module Text {

  /** ECMAScript WhiteSpace and LineTerminator code points, which `trim` removes. */
  predicate IsWhitespace(c: char) {
    c == '\t' || c == '\n' || c == '\U{000B}' || c == '\U{000C}' || c == '\r' || c == ' '
    || c == '\U{00A0}' || c == '\U{1680}' || ('\U{2000}' <= c <= '\U{200A}')
    || c == '\U{2028}' || c == '\U{2029}' || c == '\U{202F}' || c == '\U{205F}'
    || c == '\U{3000}' || c == '\U{FEFF}'
  }

  /** Drops leading whitespace: the result is the suffix of `s` that starts at
      its first non-whitespace character. */
  function TrimStart(s: string): (r: string)
    ensures |r| <= |s| && r == s[|s| - |r|..]
    ensures forall k :: 0 <= k < |s| - |r| ==> IsWhitespace(s[k])
    ensures |r| > 0 ==> !IsWhitespace(r[0])
  {
    if |s| > 0 && IsWhitespace(s[0]) then TrimStart(s[1..]) else s
  }

  /** Drops trailing whitespace: the result is the prefix of `s` that ends at
      its last non-whitespace character. */
  function TrimEnd(s: string): (r: string)
    ensures |r| <= |s| && r == s[..|r|]
    ensures forall k :: |r| <= k < |s| ==> IsWhitespace(s[k])
    ensures |r| > 0 ==> !IsWhitespace(r[|r| - 1])
  {
    if |s| > 0 && IsWhitespace(s[|s| - 1]) then TrimEnd(s[..|s| - 1]) else s
  }

  /** `String.prototype.trim`: `s` with whitespace removed at both ends. The
      result is a piece of `s` that neither starts nor ends with whitespace,
      and only whitespace was cut away. */
  function Trim(s: string): (r: string)
    ensures exists i, j ::
              && 0 <= i <= j <= |s| && r == s[i..j]
              && (forall k :: 0 <= k < i ==> IsWhitespace(s[k]))
              && (forall k :: j <= k < |s| ==> IsWhitespace(s[k]))
    ensures |r| > 0 ==> !IsWhitespace(r[0]) && !IsWhitespace(r[|r| - 1])
  {
    var t := TrimStart(s);
    var r := TrimEnd(t);
    var i := |s| - |t|;
    assert r == s[i..i + |r|];
    r
  }

  /** Trimming an already trimmed string changes nothing. */
  lemma TrimIdempotent(s: string)
    ensures Trim(Trim(s)) == Trim(s)
  {
    var r := Trim(s);
    if |r| > 0 {
      assert TrimStart(r) == r;
      assert TrimEnd(r) == r;
    }
  }

  /** Every character of `Trim(s)` is a character of `s`. */
  lemma TrimKeepsCharacters(s: string, c: char)
    requires c in Trim(s)
    ensures c in s
  {
    var i, j :| 0 <= i <= j <= |s| && Trim(s) == s[i..j];
  }

  /** `parts.map((t) => t.trim())`. */
  function TrimAll(parts: seq<string>): (r: seq<string>)
    ensures |r| == |parts|
    ensures forall k :: 0 <= k < |r| ==> r[k] == Trim(parts[k])
  {
    if |parts| == 0 then [] else [Trim(parts[0])] + TrimAll(parts[1..])
  }

  /** The separators of `split(/[,;|]/)`. */
  predicate IsTagDelimiter(c: char) {
    c == ',' || c == ';' || c == '|'
  }

  predicate NoDelimiter(s: string) {
    forall k :: 0 <= k < |s| ==> !IsTagDelimiter(s[k])
  }

  /** Trimmed delimiter-free pieces stay delimiter-free and are trimmed. */
  lemma TrimmedPieces(parts: seq<string>)
    requires forall k :: 0 <= k < |parts| ==> NoDelimiter(parts[k])
    ensures forall k :: 0 <= k < |parts| ==>
      Trim(TrimAll(parts)[k]) == TrimAll(parts)[k] && NoDelimiter(TrimAll(parts)[k])
  {
    forall k | 0 <= k < |parts|
      ensures Trim(TrimAll(parts)[k]) == TrimAll(parts)[k] && NoDelimiter(TrimAll(parts)[k])
    {
      var t := Trim(parts[k]);
      assert TrimAll(parts)[k] == t;
      TrimIdempotent(parts[k]);
      forall c | c in t
        ensures !IsTagDelimiter(c)
      {
        TrimKeepsCharacters(parts[k], c);
      }
    }
  }

  /** `s` with its delimiters deleted. */
  function RemoveDelimiters(s: string): (r: string)
    ensures NoDelimiter(r)
  {
    if |s| == 0 then ""
    else if IsTagDelimiter(s[0]) then RemoveDelimiters(s[1..])
    else [s[0]] + RemoveDelimiters(s[1..])
  }

  function CountDelimiters(s: string): nat {
    if |s| == 0 then 0 else (if IsTagDelimiter(s[0]) then 1 else 0) + CountDelimiters(s[1..])
  }

  function Concat(parts: seq<string>): string {
    if |parts| == 0 then "" else parts[0] + Concat(parts[1..])
  }

  /** `s.split(/[,;|]/)`: the pieces between delimiters. There is one piece
      more than there are delimiters, no piece holds a delimiter, and the
      pieces put back together are `s` without its delimiters. */
  function Split(s: string): (parts: seq<string>)
    ensures |parts| == CountDelimiters(s) + 1
    ensures forall k :: 0 <= k < |parts| ==> NoDelimiter(parts[k])
    ensures Concat(parts) == RemoveDelimiters(s)
  {
    if |s| == 0 then [""]
    else
      var rest := Split(s[1..]);
      if IsTagDelimiter(s[0]) then [""] + rest
      else
        assert rest == [rest[0]] + rest[1..];
        assert Concat(rest) == rest[0] + Concat(rest[1..]);
        assert ([s[0]] + rest[0]) + Concat(rest[1..]) == [s[0]] + Concat(rest);
        [[s[0]] + rest[0]] + rest[1..]
  }

  /** The delimiters of `s`, in order. */
  function Delimiters(s: string): (r: string)
    ensures |r| == CountDelimiters(s)
    ensures forall k :: 0 <= k < |r| ==> IsTagDelimiter(r[k])
  {
    if |s| == 0 then ""
    else if IsTagDelimiter(s[0]) then [s[0]] + Delimiters(s[1..])
    else Delimiters(s[1..])
  }

  /** `parts[0] + seps[0] + parts[1] + ... + parts[n]`: the pieces with one
      separator character between each two. */
  function JoinWith(parts: seq<string>, seps: string): string
    requires |parts| == |seps| + 1
  {
    if |parts| == 1 then parts[0]
    else parts[0] + [seps[0]] + JoinWith(parts[1..], seps[1..])
  }

  /** A delimiter-free piece followed by a delimiter splits off as one piece. */
  lemma {:induction false} SplitAfterPiece(a: string, c: char, rest: string)
    requires NoDelimiter(a) && IsTagDelimiter(c)
    ensures Split(a + [c] + rest) == [a] + Split(rest)
  {
    if |a| == 0 {
      assert a + [c] + rest == [c] + rest;
      assert (a + [c] + rest)[1..] == rest;
    } else {
      assert (a + [c] + rest)[1..] == a[1..] + [c] + rest;
      SplitAfterPiece(a[1..], c, rest);
      assert [a[0]] + a[1..] == a;
    }
  }

  lemma {:induction false} SplitNoDelimiter(a: string)
    requires NoDelimiter(a)
    ensures Split(a) == [a]
  {
    if |a| > 0 {
      SplitNoDelimiter(a[1..]);
      assert [a[0]] + a[1..] == a;
    }
  }

  /** Splitting undoes joining: delimiter-free pieces joined with any
      delimiters, mixed as they may be, split back into the same pieces. */
  lemma {:induction false} SplitJoin(parts: seq<string>, seps: string)
    requires |parts| == |seps| + 1
    requires forall k :: 0 <= k < |parts| ==> NoDelimiter(parts[k])
    requires forall k :: 0 <= k < |seps| ==> IsTagDelimiter(seps[k])
    ensures Split(JoinWith(parts, seps)) == parts
  {
    if |parts| == 1 {
      SplitNoDelimiter(parts[0]);
    } else {
      SplitJoin(parts[1..], seps[1..]);
      SplitAfterPiece(parts[0], seps[0], JoinWith(parts[1..], seps[1..]));
      assert parts == [parts[0]] + parts[1..];
    }
  }

  /** Joining undoes splitting: the pieces put back together with the
      delimiters they were cut at give the text again. With `SplitJoin` this
      pins `Split` on every input. */
  lemma {:induction false} SplitRebuild(s: string)
    ensures |Split(s)| == |Delimiters(s)| + 1
    ensures JoinWith(Split(s), Delimiters(s)) == s
  {
    if |s| > 0 {
      var rest := Split(s[1..]);
      var seps := Delimiters(s[1..]);
      SplitRebuild(s[1..]);
      if IsTagDelimiter(s[0]) {
        assert Split(s) == [""] + rest && Delimiters(s) == [s[0]] + seps;
        assert ([""] + rest)[1..] == rest;
        assert s == "" + [s[0]] + s[1..];
      } else {
        JoinPrepend(s[0], rest, seps);
        assert [s[0]] + s[1..] == s;
      }
    }
  }

  /** Putting a character in front of the first piece puts it in front of
      the joined text. */
  lemma {:induction false} JoinPrepend(c: char, parts: seq<string>, seps: string)
    requires |parts| == |seps| + 1
    ensures JoinWith([[c] + parts[0]] + parts[1..], seps) == [c] + JoinWith(parts, seps)
  {
    var parts' := [[c] + parts[0]] + parts[1..];
    if |parts| > 1 {
      assert parts'[1..] == parts[1..];
    }
  }

  function DigitChar(d: nat): char
    requires d < 10
  {
    "0123456789"[d]
  }

  function DigitValue(c: char): nat {
    if '0' <= c <= '9' then (c - '0') as nat else 0
  }

  predicate IsDigit(c: char) {
    '0' <= c <= '9'
  }

  /** `String(n)` for a non-negative integer: its decimal digits, without
      leading zeros. */
  function NatToString(n: nat): (s: string)
    ensures |s| > 0
    ensures forall k :: 0 <= k < |s| ==> IsDigit(s[k])
    ensures |s| > 1 ==> s[0] != '0'
  {
    if n < 10 then [DigitChar(n)] else NatToString(n / 10) + [DigitChar(n % 10)]
  }

  /** The number a string of decimal digits denotes. */
  function DecimalValue(s: string): nat {
    if |s| == 0 then 0 else 10 * DecimalValue(s[..|s| - 1]) + DigitValue(s[|s| - 1])
  }

  /** Reading back the digits gives the number. */
  lemma {:induction false} DecimalRoundTrip(n: nat)
    ensures DecimalValue(NatToString(n)) == n
  {
    var s := NatToString(n);
    if n >= 10 {
      DecimalRoundTrip(n / 10);
      assert s[..|s| - 1] == NatToString(n / 10);
    }
  }

  /** Distinct numbers have distinct decimal strings. */
  lemma NatToStringInjective(m: nat, n: nat)
    requires m != n
    ensures NatToString(m) != NatToString(n)
  {
    DecimalRoundTrip(m);
    DecimalRoundTrip(n);
  }
}
