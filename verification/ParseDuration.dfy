/** Durations such as "2w3d14h" (pkg/utils/parseduration.go). */
module ParseDuration {
  import opened Collector

  datatype ExtendedDuration = ExtendedDuration(weeks: int, days: int, hours: int, minutes: int, seconds: int)

  datatype Result = Ok(value: ExtendedDuration) | Error

  // ------------------------------------------------------------------ the regular expression

  predicate IsDigit(c: char) {
    '0' <= c <= '9'
  }

  const LOWER: seq<char> := ['w', 'd', 'h', 'm', 's']
  const UPPER: seq<char> := ['W', 'D', 'H', 'M', 'S']

  /** The slot a unit letter belongs to; 5 for any other character. */
  function UnitOf(c: char): (k: nat)
    ensures k < 5 <==> c in LOWER || c in UPPER
    ensures k < 5 ==> c == LOWER[k] || c == UPPER[k]
  {
    if c == 'w' || c == 'W' then 0
    else if c == 'd' || c == 'D' then 1
    else if c == 'h' || c == 'H' then 2
    else if c == 'm' || c == 'M' then 3
    else if c == 's' || c == 'S' then 4
    else 5
  }

  /** The length of the run of digits s starts with. */
  function DigitRun(s: string): (n: nat)
    ensures n <= |s| && forall i :: 0 <= i < n ==> IsDigit(s[i])
    ensures n < |s| ==> !IsDigit(s[n])
  {
    if s == "" || !IsDigit(s[0]) then 0 else 1 + DigitRun(s[1..])
  }

  /** Slot k: digits and its unit, matched greedily; no match is the empty string. */
  function SlotText(s: string, k: nat): string {
    var n := DigitRun(s);
    if 0 < n < |s| && UnitOf(s[n]) == k then s[..n + 1] else ""
  }

  /** The submatches of slots k to 4 of the match at the start of s. */
  function Groups(s: string, k: nat): (g: seq<string>)
    requires k <= 5
    ensures |g| == 5 - k
    decreases 5 - k
  {
    if k == 5 then [] else [SlotText(s, k)] + Groups(s[|SlotText(s, k)|..], k + 1)
  }

  /** What is left of s behind slots k to 4. */
  function Behind(s: string, k: nat): (r: string)
    requires k <= 5
    ensures |r| <= |s|
    decreases 5 - k
  {
    if k == 5 then s else Behind(s[|SlotText(s, k)|..], k + 1)
  }

  /** Every slot being optional there is a match at every position; an empty one is dropped when it
      abuts the match before it. */
  function MatchAt(s: string, abutting: bool): seq<seq<string>> {
    if abutting && |Behind(s, 0)| == |s| then [] else [Groups(s, 0)]
  }

  /** Where the search goes on: behind the match, or one character further when it is empty. */
  function After(s: string): (r: string)
    requires s != ""
    ensures |r| < |s|
  {
    if |Behind(s, 0)| < |s| then Behind(s, 0) else s[1..]
  }

  /** FindAllStringSubmatch, from left to right. */
  function FindAll(s: string, abutting: bool): seq<seq<string>>
    decreases |s|
  {
    MatchAt(s, abutting) + if s == "" then [] else FindAll(After(s), |Behind(s, 0)| < |s|)
  }

  // ----------------------------------------------------------------------------- numbers

  function DigitValue(c: char): int {
    c as int - '0' as int
  }

  function Decimal(digits: string): int {
    if digits == "" then 0 else 10 * Decimal(digits[..|digits| - 1]) + DigitValue(digits[|digits| - 1])
  }

  /** strconv.Atoi on digits, its error ignored: out of range is the largest int64. */
  function Atoi(digits: string): int {
    if Decimal(digits) > MAX_DURATION then MAX_DURATION else Decimal(digits)
  }

  const HOUR: int := 3_600_000_000_000
  const MINUTE: int := 60_000_000_000
  const SECOND: int := 1_000_000_000

  /** Duration, in int64 arithmetic as it is written. */
  function Duration(d: ExtendedDuration): int {
    var dur := Wrap(d.hours * HOUR);
    var dur := Wrap(dur + Wrap(Wrap(d.days * 24) * HOUR));
    var dur := Wrap(dur + Wrap(Wrap(d.weeks * 168) * HOUR));
    var dur := Wrap(dur + Wrap(d.minutes * MINUTE));
    Wrap(dur + Wrap(d.seconds * SECOND))
  }

  /** The nanoseconds of it: 7 days to a week, 24 hours to a day, 60 minutes to an hour and 60
      seconds to a minute. */
  function Total(d: ExtendedDuration): int {
    ((((d.weeks * 7 + d.days) * 24 + d.hours) * 60 + d.minutes) * 60 + d.seconds) * 1_000_000_000
  }

  lemma WrapShift(n: int, k: int)
    ensures Wrap(n + k * 0x1_0000_0000_0000_0000) == Wrap(n)
  {
  }

  lemma WrapTimes(n: int, k: int)
    ensures Wrap(Wrap(n) * k) == Wrap(n * k)
  {
    var q := (n + 0x8000_0000_0000_0000) / 0x1_0000_0000_0000_0000;
    assert Wrap(n) * k == n * k + (-q * k) * 0x1_0000_0000_0000_0000;
    WrapShift(n * k, -q * k);
  }

  /** Duration is the exact total up to one wrap-around, so exact as long as it fits. */
  lemma DurationIsTotal(d: ExtendedDuration)
    ensures Duration(d) == Wrap(Total(d))
    ensures Fits(Total(d)) ==> Duration(d) == Total(d)
  {
    WrapTimes(d.days * 24, HOUR);
    WrapTimes(d.weeks * 168, HOUR);
    WrapSums(d.hours * HOUR, d.days * 24 * HOUR, d.weeks * 168 * HOUR, d.minutes * MINUTE, d.seconds * SECOND);
  }

  /** A second is 10^9 nanoseconds, ... */
  lemma SecondIs(d: ExtendedDuration)
    requires Fits(Total(d)) && Fits(Total(d) + 1_000_000_000)
    ensures Duration(d.(seconds := d.seconds + 1)) == Duration(d) + 1_000_000_000
  {
    DurationIsTotal(d);
    DurationIsTotal(d.(seconds := d.seconds + 1));
  }

  /** ... and any number of units may be carried over into the next one. */
  lemma UnitsNest(d: ExtendedDuration, k: int)
    ensures Duration(d.(seconds := d.seconds + 60 * k)) == Duration(d.(minutes := d.minutes + k))
    ensures Duration(d.(minutes := d.minutes + 60 * k)) == Duration(d.(hours := d.hours + k))
    ensures Duration(d.(hours := d.hours + 24 * k)) == Duration(d.(days := d.days + k))
    ensures Duration(d.(days := d.days + 7 * k)) == Duration(d.(weeks := d.weeks + k))
  {
    SameTotal(d.(seconds := d.seconds + 60 * k), d.(minutes := d.minutes + k));
    SameTotal(d.(minutes := d.minutes + 60 * k), d.(hours := d.hours + k));
    SameTotal(d.(hours := d.hours + 24 * k), d.(days := d.days + k));
    SameTotal(d.(days := d.days + 7 * k), d.(weeks := d.weeks + k));
  }

  lemma SameTotal(d: ExtendedDuration, e: ExtendedDuration)
    requires Total(d) == Total(e)
    ensures Duration(d) == Duration(e)
  {
    DurationIsTotal(d);
    DurationIsTotal(e);
  }

  lemma WrapSums(a: int, b: int, c: int, d: int, e: int)
    ensures Wrap(Wrap(Wrap(Wrap(Wrap(a) + Wrap(b)) + Wrap(c)) + Wrap(d)) + Wrap(e)) == Wrap(a + b + c + d + e)
  {
    WrapSum(a, b);
    WrapSum(a + b, c);
    WrapSum(a + b + c, d);
    WrapSum(a + b + c + d, e);
  }

  lemma WrapSum(a: int, b: int)
    ensures Wrap(Wrap(a) + Wrap(b)) == Wrap(a + b)
  {
    WrapAdd(a, Wrap(b));
    WrapAdd(b, a);
  }

  // ------------------------------------------------------------------------- the parser

  /** One submatch is taken into a field that is still zero. */
  method Take(field: int, text: string, k: nat) returns (taken: int)
    requires k < 5 && IsSlot(text, k)
    ensures taken == if field == 0 && text != "" then Atoi(text[..|text| - 1]) else field
  {
    taken := field;
    if field == 0 && (LOWER[k] in text || UPPER[k] in text) {
      taken := Atoi(text[..|text| - 1]);
    }
    if text != "" {
      assert text[|text| - 1] in text;
    }
  }

  method TakeMatch(r: ExtendedDuration, g: seq<string>) returns (t: ExtendedDuration)
    requires IsMatch(g, 0)
    ensures t == Merge(r, Fields(TokensOf(g, 0)))
  {
    forall k | 0 <= k < 5 ensures IsSlot(g[k], k) { MatchSlot(g, 0, k); }
    FieldsOfMatch(g);
    var w := Take(r.weeks, g[0], 0);
    var d := Take(r.days, g[1], 1);
    var h := Take(r.hours, g[2], 2);
    var m := Take(r.minutes, g[3], 3);
    var s := Take(r.seconds, g[4], 4);
    t := ExtendedDuration(w, d, h, m, s);
  }

  /** ParseDuration: for every string the same fields, and the same failures, as the simple scan. */
  method Parse(duration: string) returns (r: Result)
    ensures r == ScanDuration(duration)
  {
    var result := ExtendedDuration(0, 0, 0, 0, 0);
    var res := FindAll(duration, false);
    AllAreMatches(duration, false);
    MatchesAreScanned(duration, false);
    for idx := 0 to |res|
      invariant Merge(result, Fields(Flatten(res[idx..]))) == Fields(Flatten(res))
    {
      FieldsFrom(res, idx);
      AllMatchesAt(res, idx);
      result := TakeMatch(result, res[idx]);
    }
    assert res[|res|..] == [];
    if Duration(result) == 0 {
      return Error;
    }
    return Ok(result);
  }

  // ---------------------------------------------------------------------- the simple scan

  datatype Token = Token(digits: string, unit: nat)

  /** Every maximal run of digits that a unit letter follows, from left to right. */
  function Scan(s: string): seq<Token>
    decreases |s|
  {
    if s == "" then []
    else if !IsDigit(s[0]) then Scan(s[1..])
    else
      var n := DigitRun(s);
      if n < |s| && UnitOf(s[n]) < 5 then [Token(s[..n], UnitOf(s[n]))] + Scan(s[n + 1..])
      else Scan(s[n..])
  }

  /** The first value of a unit that is not zero, or zero. */
  function FirstOf(ts: seq<Token>, unit: nat): int {
    if ts == [] then 0
    else if ts[0].unit == unit && Atoi(ts[0].digits) != 0 then Atoi(ts[0].digits)
    else FirstOf(ts[1..], unit)
  }

  function Fields(ts: seq<Token>): ExtendedDuration {
    ExtendedDuration(FirstOf(ts, 0), FirstOf(ts, 1), FirstOf(ts, 2), FirstOf(ts, 3), FirstOf(ts, 4))
  }

  /** What Parse is to compute: per unit the first non-zero value, and an error exactly when the
      resulting duration is zero. */
  function ScanDuration(s: string): Result {
    if Duration(Fields(Scan(s))) == 0 then Error else Ok(Fields(Scan(s)))
  }

  // ------------------------------------------------------ matching and scanning agree

  /** A submatch is empty or digits followed by the letter of its slot. */
  predicate IsSlot(text: string, k: nat) {
    text != "" ==> |text| == DigitRun(text) + 1 && UnitOf(text[|text| - 1]) == k
  }

  /** The submatches of slots k to 4. */
  predicate IsMatch(g: seq<string>, k: nat)
    decreases |g|
  {
    k <= 5 && |g| == 5 - k && (g == [] || (IsSlot(g[0], k) && IsMatch(g[1..], k + 1)))
  }

  lemma {:induction false} MatchSlot(g: seq<string>, k: nat, j: nat)
    requires IsMatch(g, k) && j < |g|
    ensures IsSlot(g[j], k + j)
  {
    if j > 0 { MatchSlot(g[1..], k + 1, j - 1); }
  }

  predicate AllMatches(res: seq<seq<string>>) {
    res == [] || (IsMatch(res[0], 0) && AllMatches(res[1..]))
  }

  lemma {:induction false} AllMatchesAt(res: seq<seq<string>>, i: nat)
    requires AllMatches(res) && i < |res|
    ensures IsMatch(res[i], 0)
  {
    if i > 0 { AllMatchesAt(res[1..], i - 1); }
  }

  function TextValue(text: string): int {
    if text == "" then 0 else Atoi(text[..|text| - 1])
  }

  function TokenOf(text: string, k: nat): seq<Token> {
    if text == "" then [] else [Token(text[..|text| - 1], k)]
  }

  /** The tokens that the submatches of slots k to 4 hold. */
  function TokensOf(g: seq<string>, k: nat): seq<Token> {
    if g == [] then []
    else TokenOf(g[0], k) + TokensOf(g[1..], k + 1)
  }

  function Flatten(res: seq<seq<string>>): seq<Token> {
    if res == [] then [] else TokensOf(res[0], 0) + Flatten(res[1..])
  }

  function Or(a: int, b: int): int {
    if a != 0 then a else b
  }

  function Merge(a: ExtendedDuration, b: ExtendedDuration): ExtendedDuration {
    ExtendedDuration(Or(a.weeks, b.weeks), Or(a.days, b.days), Or(a.hours, b.hours),
                     Or(a.minutes, b.minutes), Or(a.seconds, b.seconds))
  }

  lemma {:induction false} FirstOfAppend(ts: seq<Token>, us: seq<Token>, unit: nat)
    ensures FirstOf(ts + us, unit) == Or(FirstOf(ts, unit), FirstOf(us, unit))
  {
    if ts == [] {
      assert ts + us == us;
    } else {
      FirstOfAppend(ts[1..], us, unit);
      assert (ts + us)[1..] == ts[1..] + us;
    }
  }

  lemma FieldsMerge(ts: seq<Token>, us: seq<Token>)
    ensures Fields(ts + us) == Merge(Fields(ts), Fields(us))
  {
    FirstOfAppend(ts, us, 0);
    FirstOfAppend(ts, us, 1);
    FirstOfAppend(ts, us, 2);
    FirstOfAppend(ts, us, 3);
    FirstOfAppend(ts, us, 4);
  }

  lemma FirstOfText(text: string, k: nat, unit: nat)
    ensures FirstOf(TokenOf(text, k), unit) == if k == unit then TextValue(text) else 0
  {
    if text != "" { assert TokenOf(text, k)[1..] == []; }
  }

  lemma FirstOfHead(g: seq<string>, k: nat, unit: nat)
    requires g != []
    ensures FirstOf(TokensOf(g, k), unit)
         == Or(if k == unit then TextValue(g[0]) else 0, FirstOf(TokensOf(g[1..], k + 1), unit))
  {
    FirstOfText(g[0], k, unit);
    FirstOfAppend(TokenOf(g[0], k), TokensOf(g[1..], k + 1), unit);
  }

  lemma {:induction false} NotBefore(g: seq<string>, k: nat, unit: nat)
    requires unit < k
    ensures FirstOf(TokensOf(g, k), unit) == 0
    decreases |g|
  {
    if g == [] {
    } else {
      NotBefore(g[1..], k + 1, unit);
      FirstOfHead(g, k, unit);
    }
  }

  lemma {:induction false} FirstOfMatch(g: seq<string>, k: nat, unit: nat, text: string)
    requires k <= unit < k + |g| && text == g[unit - k]
    ensures FirstOf(TokensOf(g, k), unit) == TextValue(text)
    decreases |g|
  {
    FirstOfHead(g, k, unit);
    if k == unit {
      NotBefore(g[1..], k + 1, unit);
    } else {
      FirstOfMatch(g[1..], k + 1, unit, text);
    }
  }

  lemma FieldsAre(ts: seq<Token>, g: seq<string>)
    requires |g| == 5 && FirstOf(ts, 0) == TextValue(g[0]) && FirstOf(ts, 1) == TextValue(g[1])
    requires FirstOf(ts, 2) == TextValue(g[2]) && FirstOf(ts, 3) == TextValue(g[3]) && FirstOf(ts, 4) == TextValue(g[4])
    ensures Fields(ts) == ExtendedDuration(TextValue(g[0]), TextValue(g[1]), TextValue(g[2]),
                                           TextValue(g[3]), TextValue(g[4]))
  {
  }

  lemma FieldsOfMatch(g: seq<string>)
    requires |g| == 5
    ensures Fields(TokensOf(g, 0)) == ExtendedDuration(TextValue(g[0]), TextValue(g[1]), TextValue(g[2]),
                                                       TextValue(g[3]), TextValue(g[4]))
  {
    FirstOfMatch(g, 0, 0, g[0]);
    FirstOfMatch(g, 0, 1, g[1]);
    FirstOfMatch(g, 0, 2, g[2]);
    FirstOfMatch(g, 0, 3, g[3]);
    FirstOfMatch(g, 0, 4, g[4]);
    FieldsAre(TokensOf(g, 0), g);
  }

  lemma FieldsFrom(res: seq<seq<string>>, i: nat)
    requires i < |res|
    ensures Fields(Flatten(res[i..])) == Merge(Fields(TokensOf(res[i], 0)), Fields(Flatten(res[i + 1..])))
  {
    assert res[i..][1..] == res[i + 1..];
    FieldsMerge(TokensOf(res[i], 0), Flatten(res[i + 1..]));
  }

  lemma {:induction false} RunOfPrefix(s: string)
    ensures DigitRun(s) < |s| ==> DigitRun(s[..DigitRun(s) + 1]) == DigitRun(s)
  {
    var n := DigitRun(s);
    if 0 < n < |s| {
      RunOfPrefix(s[1..]);
      assert s[..n + 1][1..] == s[1..][..n];
    }
  }

  lemma SlotTextIsSlot(s: string, k: nat)
    ensures IsSlot(SlotText(s, k), k)
  {
    RunOfPrefix(s);
  }

  lemma {:induction false} GroupsAreMatch(s: string, k: nat)
    requires k <= 5
    ensures IsMatch(Groups(s, k), k)
    decreases 5 - k
  {
    if k < 5 {
      var rest := s[|SlotText(s, k)|..];
      SlotTextIsSlot(s, k);
      GroupsAreMatch(rest, k + 1);
      assert Groups(s, k)[1..] == Groups(rest, k + 1);
    }
  }

  lemma {:induction false} AllAreMatches(s: string, abutting: bool)
    ensures AllMatches(FindAll(s, abutting))
    decreases |s|
  {
    GroupsAreMatch(s, 0);
    var more := if s == "" then [] else FindAll(After(s), |Behind(s, 0)| < |s|);
    if s != "" { AllAreMatches(After(s), |Behind(s, 0)| < |s|); }
    AllMatchesAppend(MatchAt(s, abutting), more);
  }

  lemma AllMatchesAppend(few: seq<seq<string>>, res: seq<seq<string>>)
    requires |few| <= 1 && AllMatches(few) && AllMatches(res)
    ensures AllMatches(few + res)
  {
    if few == [] { assert few + res == res; } else { assert (few + res)[1..] == res; }
  }

  lemma TokenIsScanned(s: string, k: nat)
    requires k < 5 && SlotText(s, k) != ""
    ensures var text := SlotText(s, k);
            Scan(s) == TokenOf(text, k) + Scan(s[|text|..])
  {
    var n := DigitRun(s);
    assert s[..n + 1][..n] == s[..n];
  }

  lemma NextSlotIsScanned(s: string, k: nat)
    requires k < 5
    ensures var text := SlotText(s, k);
            Scan(s) == TokenOf(text, k) + Scan(s[|text|..])
  {
    var text := SlotText(s, k);
    if text == "" {
      assert s[0..] == s && [] + Scan(s) == Scan(s);
    } else {
      TokenIsScanned(s, k);
    }
  }

  lemma NextSlot(s: string, k: nat)
    requires k < 5
    ensures var text := SlotText(s, k);
            var rest := s[|text|..];
            && Behind(s, k) == Behind(rest, k + 1)
            && TokensOf(Groups(s, k), k)
               == TokenOf(text, k) + TokensOf(Groups(rest, k + 1), k + 1)
  {
    var rest := s[|SlotText(s, k)|..];
    assert Groups(s, k)[1..] == Groups(rest, k + 1);
  }

  lemma Associate(a: seq<Token>, b: seq<Token>, c: seq<Token>)
    ensures (a + b) + c == a + (b + c)
  {
  }

  /** A match holds the tokens of the part of the string that it covers. */
  lemma {:induction false} MatchScans(s: string, k: nat)
    requires k <= 5
    ensures Scan(s) == TokensOf(Groups(s, k), k) + Scan(Behind(s, k))
    decreases 5 - k
  {
    if k == 5 {
      assert TokensOf([], 5) + Scan(s) == Scan(s);
    } else {
      var text := SlotText(s, k);
      var rest := s[|text|..];
      MatchScans(rest, k + 1);
      NextSlot(s, k);
      var more, behind := TokensOf(Groups(rest, k + 1), k + 1), Scan(Behind(s, k));
      NextSlotIsScanned(s, k);
      Associate(TokenOf(text, k), more, behind);
    }
  }

  /** Where no slot matches, nothing is scanned before the next character. */
  lemma NoMatchNoToken(s: string)
    requires s != "" && |Behind(s, 0)| == |s|
    ensures Scan(s) == Scan(s[1..])
  {
    var n := DigitRun(s);
    if n > 0 {
      if n < |s| && UnitOf(s[n]) < 5 { TokenIsMatched(s, 0); }
      assert n == 1 + DigitRun(s[1..]);
      assert s[1..][n - 1..] == s[n..];
    }
  }

  lemma {:induction false} TokenIsMatched(s: string, k: nat)
    requires 0 < DigitRun(s) < |s| && k <= UnitOf(s[DigitRun(s)]) < 5
    ensures |Behind(s, k)| < |s|
    decreases 5 - k
  {
    if UnitOf(s[DigitRun(s)]) == k {
      assert |SlotText(s, k)| > 0;
    } else {
      assert SlotText(s, k) == "" && s[0..] == s;
      TokenIsMatched(s, k + 1);
    }
  }

  lemma FlattenAppend(few: seq<seq<string>>, res: seq<seq<string>>)
    requires |few| <= 1
    ensures Flatten(few + res) == Flatten(few) + Flatten(res)
  {
    if few == [] {
      assert few + res == res && [] + Flatten(res) == Flatten(res);
    } else {
      assert (few + res)[1..] == res;
      FlattenOne(few[0]);
      assert few == [few[0]];
    }
  }

  lemma EmptySlot(s: string, k: nat)
    requires k < 5 && |Behind(s, k)| == |s|
    ensures SlotText(s, k) == "" && Behind(s, k) == Behind(s, k + 1)
  {
    var rest := s[|SlotText(s, k)|..];
    assert Behind(s, k) == Behind(rest, k + 1) && |Behind(rest, k + 1)| <= |rest|;
    assert rest == s;
  }

  lemma {:induction false} EmptyMatch(s: string, k: nat)
    requires k <= 5 && |Behind(s, k)| == |s|
    ensures Behind(s, k) == s
    decreases 5 - k
  {
    if k == 5 {
    } else {
      EmptySlot(s, k);
      EmptyMatch(s, k + 1);
    }
  }

  lemma FlattenOne(g: seq<string>)
    ensures Flatten([g]) == TokensOf(g, 0)
  {
    assert [g][1..] == [];
    assert TokensOf(g, 0) + [] == TokensOf(g, 0);
  }

  lemma NothingInFront(a: seq<Token>, b: seq<Token>)
    requires a + b == b
    ensures a == []
  {
    assert |a + b| == |a| + |b|;
  }

  /** One match holds what is scanned up to where the search goes on. */
  lemma MatchIsScanned(s: string, abutting: bool)
    ensures Scan(s) == Flatten(MatchAt(s, abutting)) + if s == "" then [] else Scan(After(s))
  {
    MatchScans(s, 0);
    FlattenOne(Groups(s, 0));
    if |Behind(s, 0)| == |s| {
      EmptyMatch(s, 0);
      NothingInFront(TokensOf(Groups(s, 0), 0), Scan(s));
      if s != "" { NoMatchNoToken(s); }
    }
  }

  /** All matches together hold exactly the scanned tokens, in order. */
  lemma {:induction false} MatchesAreScanned(s: string, abutting: bool)
    ensures Flatten(FindAll(s, abutting)) == Scan(s)
    decreases |s|
  {
    MatchIsScanned(s, abutting);
    var more := if s == "" then [] else FindAll(After(s), |Behind(s, 0)| < |s|);
    if s != "" { MatchesAreScanned(After(s), |Behind(s, 0)| < |s|); }
    FlattenAppend(MatchAt(s, abutting), more);
  }

  // ------------------------------------------------------------- printing and parsing

  function Itoa(n: nat): (s: string)
    ensures s != "" && forall i :: 0 <= i < |s| ==> IsDigit(s[i])
  {
    (if n < 10 then "" else Itoa(n / 10)) + [('0' as int + n % 10) as char]
  }

  lemma {:induction false} ItoaDecimal(n: nat)
    ensures Decimal(Itoa(n)) == n
  {
    var s := Itoa(n);
    if n < 10 {
      assert s[..0] == "";
    } else {
      ItoaDecimal(n / 10);
      assert s[..|s| - 1] == Itoa(n / 10);
    }
  }

  /** A number printed and read back is itself, or the largest int64. */
  lemma AtoiOfItoa(n: nat)
    ensures Atoi(Itoa(n)) == if n > 0x7FFF_FFFF_FFFF_FFFF then 0x7FFF_FFFF_FFFF_FFFF else n
  {
    ItoaDecimal(n);
  }

  /** A printed component: a value and the slot of its unit, in either letter case. */
  datatype Component = Component(value: nat, unit: nat, upper: bool)

  predicate IsComponent(c: Component) {
    c.unit < 5 && c.value <= MAX_DURATION
  }

  function Letter(c: Component): char
    requires IsComponent(c)
  {
    if c.upper then UPPER[c.unit] else LOWER[c.unit]
  }

  function Print(cs: seq<Component>): string
    requires forall i :: 0 <= i < |cs| ==> IsComponent(cs[i])
  {
    if cs == [] then "" else Itoa(cs[0].value) + [Letter(cs[0])] + Print(cs[1..])
  }

  /** The first non-zero value printed with a unit. */
  function FirstPrinted(cs: seq<Component>, unit: nat): int {
    if cs == [] then 0
    else if cs[0].unit == unit && cs[0].value != 0 then cs[0].value
    else FirstPrinted(cs[1..], unit)
  }

  lemma {:induction false} RunOfDigits(digits: string, c: char, rest: string)
    requires !IsDigit(c) && forall i :: 0 <= i < |digits| ==> IsDigit(digits[i])
    ensures DigitRun(digits + [c] + rest) == |digits|
  {
    if digits == "" {
    } else {
      RunOfDigits(digits[1..], c, rest);
      assert (digits + [c] + rest)[1..] == digits[1..] + [c] + rest;
    }
  }

  lemma ScanComponent(c: Component, rest: string)
    requires IsComponent(c)
    ensures Scan(Itoa(c.value) + [Letter(c)] + rest) == [Token(Itoa(c.value), c.unit)] + Scan(rest)
  {
    var digits := Itoa(c.value);
    var s := digits + [Letter(c)] + rest;
    assert UnitOf(Letter(c)) == c.unit;
    RunOfDigits(digits, Letter(c), rest);
    assert s[..|digits|] == digits && s[|digits| + 1..] == rest;
  }

  lemma {:induction false} ScanPrint(cs: seq<Component>, unit: nat)
    requires forall i :: 0 <= i < |cs| ==> IsComponent(cs[i])
    ensures FirstOf(Scan(Print(cs)), unit) == FirstPrinted(cs, unit)
  {
    if cs == [] {
    } else {
      var rest := Scan(Print(cs[1..]));
      ScanPrint(cs[1..], unit);
      ScanComponent(cs[0], Print(cs[1..]));
      ItoaDecimal(cs[0].value);
      var token := Token(Itoa(cs[0].value), cs[0].unit);
      assert ([token] + rest)[1..] == rest;
    }
  }

  /** Parsing any printed list of components yields per unit the first non-zero value printed, and
      fails exactly when those make a zero duration. */
  lemma ParsePrint(cs: seq<Component>, d: ExtendedDuration)
    requires forall i :: 0 <= i < |cs| ==> IsComponent(cs[i])
    requires d == ExtendedDuration(FirstPrinted(cs, 0), FirstPrinted(cs, 1), FirstPrinted(cs, 2),
                                   FirstPrinted(cs, 3), FirstPrinted(cs, 4))
    ensures ScanDuration(Print(cs)) == if Duration(d) == 0 then Error else Ok(d)
  {
    ScanPrint(cs, 0);
    ScanPrint(cs, 1);
    ScanPrint(cs, 2);
    ScanPrint(cs, 3);
    ScanPrint(cs, 4);
  }

  predicate IsDuration(d: ExtendedDuration) {
    && 0 <= d.weeks <= MAX_DURATION && 0 <= d.days <= MAX_DURATION && 0 <= d.hours <= MAX_DURATION
    && 0 <= d.minutes <= MAX_DURATION && 0 <= d.seconds <= MAX_DURATION
  }

  function Field(d: ExtendedDuration, unit: nat): int {
    if unit == 0 then d.weeks else if unit == 1 then d.days else if unit == 2 then d.hours
    else if unit == 3 then d.minutes else d.seconds
  }

  function AllComponents(d: ExtendedDuration): (cs: seq<Component>)
    requires IsDuration(d)
    ensures forall i :: 0 <= i < |cs| ==> IsComponent(cs[i])
  {
    [Component(d.weeks, 0, false), Component(d.days, 1, false), Component(d.hours, 2, false),
     Component(d.minutes, 3, false), Component(d.seconds, 4, false)]
  }

  /** "<W>w<D>d<H>h<M>m<S>s" */
  function PrintAll(d: ExtendedDuration): string
    requires IsDuration(d)
  {
    Print(AllComponents(d))
  }

  /** The text it prints. */
  lemma PrintAllIs(d: ExtendedDuration)
    requires IsDuration(d)
    ensures PrintAll(d)
         == Itoa(d.weeks) + "w" + (Itoa(d.days) + "d" + (Itoa(d.hours) + "h" + (Itoa(d.minutes) + "m" + (Itoa(d.seconds) + "s"))))
  {
    var cs := AllComponents(d);
    PrintFrom(cs, 0);
    PrintFrom(cs, 1);
    PrintFrom(cs, 2);
    PrintFrom(cs, 3);
    PrintFrom(cs, 4);
    assert cs[0..] == cs && Print(cs[5..]) == "";
    assert Itoa(d.seconds) + "s" + "" == Itoa(d.seconds) + "s";
  }

  lemma PrintFrom(cs: seq<Component>, k: nat)
    requires k < |cs| && forall i :: 0 <= i < |cs| ==> IsComponent(cs[i])
    ensures Print(cs[k..]) == Itoa(cs[k].value) + [Letter(cs[k])] + Print(cs[k + 1..])
  {
    assert cs[k..][1..] == cs[k + 1..];
  }

  /** Upper-case letters stand for the same units. */
  lemma LettersOfUnits()
    ensures UnitOf('w') == UnitOf('W') == 0 && UnitOf('d') == UnitOf('D') == 1 && UnitOf('h') == UnitOf('H') == 2
    ensures UnitOf('m') == UnitOf('M') == 3 && UnitOf('s') == UnitOf('S') == 4
    ensures Letter(Component(0, 0, true)) == 'W' && Letter(Component(0, 1, true)) == 'D' && Letter(Component(0, 2, true)) == 'H'
    ensures Letter(Component(0, 3, true)) == 'M' && Letter(Component(0, 4, true)) == 'S'
  {
  }

  lemma FirstOfAll(d: ExtendedDuration, unit: nat)
    requires IsDuration(d) && unit < 5
    ensures FirstPrinted(AllComponents(d), unit) == Field(d, unit)
  {
    FirstPrintedIs(AllComponents(d), unit, unit, Field(d, unit));
  }

  /** Printing all fields and parsing gives them back, unless the duration is zero. */
  lemma PrintAllRoundTrip(d: ExtendedDuration)
    requires IsDuration(d)
    ensures ScanDuration(PrintAll(d)) == if Duration(d) == 0 then Error else Ok(d)
  {
    FirstOfAll(d, 0);
    FirstOfAll(d, 1);
    FirstOfAll(d, 2);
    FirstOfAll(d, 3);
    FirstOfAll(d, 4);
    ParsePrint(AllComponents(d), d);
  }

  /** For fields whose total fits a zero duration means that all are zero; so every duration with
      a positive total that fits is read back. */
  lemma ZeroDuration(d: ExtendedDuration)
    requires IsDuration(d) && Fits(Total(d))
    ensures Duration(d) == 0 <==> d == ExtendedDuration(0, 0, 0, 0, 0)
    ensures Total(d) > 0 ==> ScanDuration(PrintAll(d)) == Ok(d)
  {
    DurationIsTotal(d);
    PrintAllRoundTrip(d);
  }

  /** The one component that carries the unit decides its value. */
  lemma {:induction false} FirstPrintedIs(cs: seq<Component>, unit: nat, at: nat, value: int)
    requires at < |cs| && cs[at].unit == unit && cs[at].value == value
    requires forall i :: 0 <= i < |cs| && i != at ==> cs[i].unit != unit
    ensures FirstPrinted(cs, unit) == value
    decreases |cs|
  {
    if at > 0 {
      FirstPrintedIs(cs[1..], unit, at - 1, value);
    } else {
      FirstPrintedIsZero(cs[1..], unit);
    }
  }

  lemma {:induction false} FirstPrintedIsZero(cs: seq<Component>, unit: nat)
    requires forall i :: 0 <= i < |cs| ==> cs[i].unit != unit
    ensures FirstPrinted(cs, unit) == 0
  {
    if cs == [] {
    } else {
      FirstPrintedIsZero(cs[1..], unit);
    }
  }

  /** The components list each non-zero field once, in any order, with either letter case. */
  ghost predicate Lists(cs: seq<Component>, d: ExtendedDuration) {
    && (forall i :: 0 <= i < |cs| ==> IsComponent(cs[i]) && cs[i].value == Field(d, cs[i].unit) != 0)
    && (forall i, j :: 0 <= i < j < |cs| ==> cs[i].unit != cs[j].unit)
    && (forall unit :: 0 <= unit < 5 && Field(d, unit) != 0 ==> exists i :: 0 <= i < |cs| && cs[i].unit == unit)
  }

  /** Printing only the non-zero fields, in any order, and parsing gives the duration back. */
  lemma PrintSomeRoundTrip(cs: seq<Component>, d: ExtendedDuration)
    requires IsDuration(d) && Lists(cs, d)
    ensures ScanDuration(Print(cs)) == if Duration(d) == 0 then Error else Ok(d)
  {
    forall unit | 0 <= unit < 5 ensures FirstPrinted(cs, unit) == Field(d, unit) {
      if i :| 0 <= i < |cs| && cs[i].unit == unit {
        FirstPrintedIs(cs, unit, i, Field(d, unit));
      } else {
        FirstPrintedIsZero(cs, unit);
      }
    }
    ParsePrint(cs, d);
  }

  // ------------------------------------------------------------- longevity of a run

  datatype Longevity = Iterations(number: int) | For(nanoseconds: int)

  predicate IsDigits(s: string) {
    s != "" && forall i :: 0 <= i < |s| ==> IsDigit(s[i])
  }

  datatype Number = NotANumber | Number(value: int)

  /** strconv.Atoi with its error: an optional sign, digits, an int64. */
  function ParseInt(s: string): Number {
    var signed := s != "" && (s[0] == '-' || s[0] == '+');
    var digits := if signed then s[1..] else s;
    var n := if signed && s[0] == '-' then -Decimal(digits) else Decimal(digits);
    if IsDigits(digits) && Fits(n) then Number(n) else NotANumber
  }

  /** How NewSuiteRunner reads its longevity argument: a duration first, then a number of
      iterations, then one iteration. */
  function ReadLongevity(s: string): Longevity {
    match ScanDuration(s)
    case Ok(d) => For(Duration(d))
    case Error => if ParseInt(s).Number? then Iterations(ParseInt(s).value) else Iterations(1)
  }

  /** A printed duration is taken for exactly its total. */
  lemma DurationIsLongevity(d: ExtendedDuration)
    requires IsDuration(d) && 0 < Total(d) && Fits(Total(d))
    ensures ReadLongevity(PrintAll(d)) == For(Total(d))
  {
    ZeroDuration(d);
    DurationIsTotal(d);
  }

  lemma {:induction false} NumberHasNoToken(s: string)
    requires forall i :: 0 <= i < |s| ==> IsDigit(s[i])
    ensures Scan(s) == []
  {
    if s == "" {
    } else {
      var n := DigitRun(s);
      assert n == |s|;
      assert s[n..] == "";
    }
  }

  /** A printed number is never taken for a duration: it is the number of iterations, or one iteration
      when it exceeds an int64. */
  lemma NumberIsIterations(n: nat)
    ensures ReadLongevity(Itoa(n)) == Iterations(if n <= 0x7FFF_FFFF_FFFF_FFFF then n else 1)
  {
    NumberHasNoToken(Itoa(n));
    ParsesPrinted(n);
  }

  /** So it is with a sign. */
  lemma SignedIsIterations(n: nat)
    ensures ReadLongevity(['-'] + Itoa(n)) == Iterations(if n <= 0x8000_0000_0000_0000 then 0 - n else 1)
    ensures ReadLongevity(['+'] + Itoa(n)) == Iterations(if n <= 0x7FFF_FFFF_FFFF_FFFF then n else 1)
  {
    SignHasNoToken('-', n);
    SignHasNoToken('+', n);
    ItoaDecimal(n);
    ParsesSigned('-', Itoa(n), n);
    ParsesSigned('+', Itoa(n), n);
    NoTokenIsNumber(['-'] + Itoa(n));
    NoTokenIsNumber(['+'] + Itoa(n));
  }

  lemma SignHasNoToken(sign: char, n: nat)
    requires !IsDigit(sign)
    ensures Scan([sign] + Itoa(n)) == []
  {
    var s := [sign] + Itoa(n);
    assert s[1..] == Itoa(n);
    NumberHasNoToken(Itoa(n));
  }

  lemma ParsesSigned(sign: char, digits: string, n: int)
    requires (sign == '-' || sign == '+') && IsDigits(digits) && Decimal(digits) == n
    ensures var m := if sign == '-' then 0 - n else n;
            ParseInt([sign] + digits) == if Fits(m) then Number(m) else NotANumber
  {
    assert ([sign] + digits)[1..] == digits;
  }

  lemma ParsesDigits(digits: string, n: int)
    requires IsDigits(digits) && Decimal(digits) == n
    ensures ParseInt(digits) == if Fits(n) then Number(n) else NotANumber
  {
    assert IsDigit(digits[0]);
  }

  lemma ParsesPrinted(n: nat)
    ensures ParseInt(Itoa(n)) == if n <= 0x7FFF_FFFF_FFFF_FFFF then Number(n) else NotANumber
  {
    ItoaDecimal(n);
    ParsesDigits(Itoa(n), n);
  }

  lemma NoTokenIsNumber(s: string)
    requires Scan(s) == []
    ensures ReadLongevity(s) == Iterations(if ParseInt(s).Number? then ParseInt(s).value else 1)
  {
  }

  lemma {:induction false} TextHasNoToken(s: string)
    requires forall i :: 0 <= i < |s| ==> !IsDigit(s[i])
    ensures Scan(s) == []
  {
    if s == "" {
    } else {
      TextHasNoToken(s[1..]);
    }
  }

  /** A text without a digit means one iteration. */
  lemma TextIsOneIteration(s: string)
    requires forall i :: 0 <= i < |s| ==> !('0' <= s[i] <= '9')
    ensures ReadLongevity(s) == Iterations(1)
  {
    TextHasNoToken(s);
    if s != "" { assert !IsDigit(s[0]) && (|s| > 1 ==> !IsDigit(s[1])); }
  }

  /** Digits are read in base ten. */
  lemma DecimalSnoc(digits: string, c: char)
    requires IsDigit(c)
    ensures Decimal("") == 0
    ensures Decimal(digits + [c]) == 10 * Decimal(digits) + (c as int - '0' as int)
  {
    assert (digits + [c])[..|digits|] == digits;
  }
}
