/** The string operations of the daemon's packages: trimming, case mapping, decimal rendering.
    Case mapping covers the ASCII letters. */
module Text {

  predicate IsSpace(c: char) {
    var u := c as int;
    9 <= u <= 13 || u == 32 || u == 0x85 || u == 0xA0 || u == 0x1680 || 0x2000 <= u <= 0x200A
    || u == 0x2028 || u == 0x2029 || u == 0x202F || u == 0x205F || u == 0x3000
  }

  /** True of a string that trimming leaves alone. */
  predicate Trimmed(s: string) {
    s == "" || (!IsSpace(s[0]) && !IsSpace(s[|s| - 1]))
  }

  function TrimLeft(s: string): (r: string)
    ensures r == "" || !IsSpace(r[0])
  {
    if s != "" && IsSpace(s[0]) then TrimLeft(s[1..]) else s
  }

  function TrimRight(s: string): (r: string)
    ensures r == "" || !IsSpace(r[|r| - 1])
    ensures r <= s
  {
    if s != "" && IsSpace(s[|s| - 1]) then TrimRight(s[..|s| - 1]) else s
  }

  function Trim(s: string): (r: string)
    ensures Trimmed(r)
    ensures Trimmed(s) ==> r == s
  {
    TrimRight(TrimLeft(s))
  }

  function UpperChar(c: char): char {
    if 'a' <= c <= 'z' then (c as int - 32) as char else c
  }

  function LowerChar(c: char): char {
    if 'A' <= c <= 'Z' then (c as int + 32) as char else c
  }

  function Upper(s: string): string {
    seq(|s|, i requires 0 <= i < |s| => UpperChar(s[i]))
  }

  function Lower(s: string): string {
    seq(|s|, i requires 0 <= i < |s| => LowerChar(s[i]))
  }

  lemma UpperFixed(s: string)
    requires forall c | c in s :: !('a' <= c <= 'z')
    ensures Upper(s) == s
  {
    forall i | 0 <= i < |s| ensures UpperChar(s[i]) == s[i] {
      assert s[i] in s;
    }
  }

  lemma TrimFixed(s: string)
    requires Trimmed(s)
    ensures Trim(s) == s
  {
  }

  predicate EqualFold(a: string, b: string) {
    Lower(a) == Lower(b)
  }

  /** The first argument with something but white space in it, trimmed. */
  function FirstNonEmpty(values: seq<string>): (r: string)
    ensures Trimmed(r)
    ensures r == "" <==> forall v | v in values :: Trim(v) == ""
    ensures r == "" || exists v :: v in values && r == Trim(v)
  {
    if values == [] then ""
    else if Trim(values[0]) != "" then Trim(values[0])
    else FirstNonEmpty(values[1..])
  }

  function Digit(n: nat): char
    requires n < 10
  {
    ('0' as int + n) as char
  }

  function Decimal(n: nat): (r: string)
    ensures r != "" && forall c | c in r :: '0' <= c <= '9'
  {
    if n < 10 then [Digit(n)] else Decimal(n / 10) + [Digit(n % 10)]
  }

  function DecimalInt(n: int): string {
    if n < 0 then "-" + Decimal(-n) else Decimal(n)
  }

  /** What a string of digits denotes. */
  function Value(s: string): int {
    if s == "" then 0 else Value(s[..|s| - 1]) * 10 + (s[|s| - 1] as int - '0' as int)
  }

  lemma {:induction false} ValueOfDecimal(n: nat)
    ensures Value(Decimal(n)) == n
  {
    if n >= 10 {
      ValueOfDecimal(n / 10);
      assert Decimal(n)[..|Decimal(n)| - 1] == Decimal(n / 10);
    } else {
      assert Value([Digit(n)][..0]) == 0;
    }
  }

  lemma DecimalInjective(a: nat, b: nat)
    requires Decimal(a) == Decimal(b)
    ensures a == b
  {
    ValueOfDecimal(a);
    ValueOfDecimal(b);
  }

  function Zeros(n: nat): (r: string)
    ensures |r| == n
  {
    if n == 0 then "" else Zeros(n - 1) + "0"
  }

  /** At least five digits, zero-filled on the left. */
  function Pad5(n: nat): string {
    var d := Decimal(n);
    if |d| < 5 then Zeros(5 - |d|) + d else d
  }

  /** Joins with the bar that separates the parts of keys and seeds. */
  function JoinBar(parts: seq<string>): string {
    if parts == [] then ""
    else if |parts| == 1 then parts[0]
    else parts[0] + "|" + JoinBar(parts[1..])
  }

  /** The strings of a list that are not blank. */
  function NonBlank(s: seq<string>): set<string> {
    set x | x in s && x != ""
  }

  /** No string but the blank one occurs twice. */
  ghost predicate NoRepeats(s: seq<string>) {
    forall i, j :: 0 <= i < j < |s| && s[i] != "" ==> s[i] != s[j]
  }

  lemma NonBlankStep(s: seq<string>, x: string)
    ensures NonBlank(s + [x]) == NonBlank(s) + (if x == "" then {} else {x})
  {
  }

  lemma NoRepeatsStep(s: seq<string>, x: string)
    ensures NoRepeats(s + [x]) <==> NoRepeats(s) && x !in NonBlank(s)
  {
    var t := s + [x];
    if NoRepeats(t) {
      assert forall i :: 0 <= i < |s| ==> s[i] == t[i] && (s[i] != "" ==> t[i] != t[|s|]);
    }
  }

  /** Counting decides repetition: a list holds as many distinct non-blank strings as it has
      places exactly when nothing in it is blank and nothing repeats. */
  lemma {:induction false} CountDecidesRepeats(s: seq<string>)
    ensures |NonBlank(s)| <= |s|
    ensures |NonBlank(s)| == |s| <==> NoRepeats(s) && "" !in s
  {
    if s != [] {
      var n := |s| - 1;
      assert s == s[..n] + [s[n]];
      CountDecidesRepeats(s[..n]);
      NonBlankStep(s[..n], s[n]);
      NoRepeatsStep(s[..n], s[n]);
      assert "" in s <==> "" in s[..n] || s[n] == "";
    }
  }

  lemma LowerFixed(s: string)
    requires forall c | c in s :: !('A' <= c <= 'Z')
    ensures Lower(s) == s
  {
    forall i | 0 <= i < |s| ensures LowerChar(s[i]) == s[i] {
      assert s[i] in s;
    }
  }

  /** Case mapping settles at once and does not disturb trimming. */
  lemma CaseIsSettled(s: string)
    ensures Lower(Lower(s)) == Lower(s) && Upper(Upper(s)) == Upper(s)
    ensures Trimmed(s) ==> Trimmed(Lower(s)) && Trimmed(Upper(s))
  {
    assert forall i :: 0 <= i < |s| ==> LowerChar(LowerChar(s[i])) == LowerChar(s[i]) && UpperChar(UpperChar(s[i])) == UpperChar(s[i]);
    if Trimmed(s) && s != "" {
      assert !IsSpace(LowerChar(s[0])) && !IsSpace(LowerChar(s[|s| - 1]));
      assert !IsSpace(UpperChar(s[0])) && !IsSpace(UpperChar(s[|s| - 1]));
    }
  }

  lemma OneName(a: string)
    ensures FirstNonEmpty([a]) == Trim(a)
  {
    hide Trim;
    assert [a][1..] == [];
  }

  lemma TwoNames(a: string, b: string)
    ensures FirstNonEmpty([a, b]) == if Trim(a) != "" then Trim(a) else Trim(b)
  {
    hide Trim;
    assert [a, b][1..] == [b];
    OneName(b);
  }

  lemma ThreeNames(a: string, b: string, c: string)
    ensures FirstNonEmpty([a, b, c]) == if Trim(a) != "" then Trim(a) else if Trim(b) != "" then Trim(b) else Trim(c)
  {
    hide Trim;
    assert [a, b, c][1..] == [b, c];
    TwoNames(b, c);
  }

  /** Trimming cuts white space off both ends, and nothing else. */
  lemma {:induction false} TrimCuts(s: string) returns (before: string, after: string)
    ensures s == before + Trim(s) + after
    ensures forall c | c in before + after :: IsSpace(c)
  {
    hide IsSpace;
    var left := TrimLeft(s);
    before := TrimLeftCuts(s);
    after := TrimRightCuts(left);
  }

  lemma {:induction false} TrimLeftCuts(s: string) returns (before: string)
    ensures s == before + TrimLeft(s)
    ensures forall c | c in before :: IsSpace(c)
  {
    if s != "" && IsSpace(s[0]) {
      var rest := TrimLeftCuts(s[1..]);
      before := [s[0]] + rest;
    } else {
      before := "";
    }
  }

  lemma {:induction false} TrimRightCuts(s: string) returns (after: string)
    ensures s == TrimRight(s) + after
    ensures forall c | c in after :: IsSpace(c)
  {
    if s != "" && IsSpace(s[|s| - 1]) {
      var rest := TrimRightCuts(s[..|s| - 1]);
      after := rest + [s[|s| - 1]];
    } else {
      after := "";
    }
  }

  /** Case mapping moves the ASCII letters by the distance between the two cases, and nothing else. */
  lemma CaseMoves(c: char)
    ensures 'a' <= c <= 'z' ==> UpperChar(c) - 'A' == c - 'a' && LowerChar(c) == c
    ensures 'A' <= c <= 'Z' ==> LowerChar(c) - 'a' == c - 'A' && UpperChar(c) == c
    ensures !('a' <= c <= 'z') && !('A' <= c <= 'Z') ==> UpperChar(c) == c == LowerChar(c)
  {
  }
}
