/**
 * The shared formatting and validation helpers of the common package:
 * phone-number formatting, duration formatting, the spam heuristic,
 * slugs and text truncation.
 */
module Utils {
  import opened Wrappers
  import opened Text

  // =====================================================================
  // formatPhoneNumber
  // =====================================================================

  /** `s.replace(/\D/g, '')`: keep the ASCII digits, in order. */
  function StripNonDigits(s: string): (r: string)
    ensures AllDigits(r) && |r| <= |s|
  {
    if s == [] then []
    else (if IsDigit(s[0]) then [s[0]] else []) + StripNonDigits(s[1..])
  }

  lemma {:induction false} StripNonDigitsConcat(a: string, b: string)
    ensures StripNonDigits(a + b) == StripNonDigits(a) + StripNonDigits(b)
  {
    if a == [] {
      assert a + b == b;
    } else {
      assert (a + b)[0] == a[0];
      assert (a + b)[1..] == a[1..] + b;
      StripNonDigitsConcat(a[1..], b);
    }
  }

  lemma {:induction false} StripNonDigitsOfDigits(d: string)
    requires AllDigits(d)
    ensures StripNonDigits(d) == d
  {
    if d != [] {
      StripNonDigitsOfDigits(d[1..]);
    }
  }

  /** Digits stay, punctuation and spaces go. */
  lemma {:induction false} StripNonDigitsOfPunctuation(p: string)
    requires forall i :: 0 <= i < |p| ==> !IsDigit(p[i])
    ensures StripNonDigits(p) == []
  {
    if p != [] {
      StripNonDigitsOfPunctuation(p[1..]);
    }
  }

  function FormatPhoneNumber(phoneNumber: string): string {
    var cleaned := StripNonDigits(phoneNumber);
    if |cleaned| == 10 then
      "(" + cleaned[0..3] + ") " + cleaned[3..6] + "-" + cleaned[6..10]
    else if |cleaned| == 11 && cleaned[0] == '1' then
      "+1 (" + cleaned[1..4] + ") " + cleaned[4..7] + "-" + cleaned[7..11]
    else
      phoneNumber
  }

  /** The US layout `(ddd) ddd-dddd`. */
  predicate IsUsLayout(r: string) {
    && |r| == 14
    && r[0] == '(' && r[4] == ')' && r[5] == ' ' && r[9] == '-'
    && AllDigits(r[1..4]) && AllDigits(r[6..9]) && AllDigits(r[10..14])
  }

  lemma {:induction false} StripNonDigitsAppendDigits(x: string, d: string)
    requires AllDigits(d)
    ensures StripNonDigits(x + d) == StripNonDigits(x) + d
  {
    StripNonDigitsConcat(x, d);
    StripNonDigitsOfDigits(d);
  }

  lemma {:induction false} StripNonDigitsAppendPunctuation(x: string, p: string)
    requires forall i :: 0 <= i < |p| ==> !IsDigit(p[i])
    ensures StripNonDigits(x + p) == StripNonDigits(x)
  {
    StripNonDigitsConcat(x, p);
    StripNonDigitsOfPunctuation(p);
    assert StripNonDigits(x) + [] == StripNonDigits(x);
  }

  /** The digits of lead + a + ") " + b + "-" + c are those of lead, then a, b, c. */
  lemma {:induction false} DigitsOfLayout(lead: string, a: string, b: string, c: string)
    requires AllDigits(a) && AllDigits(b) && AllDigits(c)
    ensures StripNonDigits(lead + a + ") " + b + "-" + c)
         == StripNonDigits(lead) + a + b + c
  {
    var s1 := lead + a;
    StripNonDigitsAppendDigits(lead, a);
    var s2 := s1 + ") ";
    StripNonDigitsAppendPunctuation(s1, ") ");
    var s3 := s2 + b;
    StripNonDigitsAppendDigits(s2, b);
    var s4 := s3 + "-";
    StripNonDigitsAppendPunctuation(s3, "-");
    StripNonDigitsAppendDigits(s4, c);
  }

  /** Ten digits: the US layout, 14 characters, carrying the cleaned digits in order. */
  lemma {:induction false} FormatPhoneNumberTen(phoneNumber: string)
    requires |StripNonDigits(phoneNumber)| == 10
    ensures var r := FormatPhoneNumber(phoneNumber);
            IsUsLayout(r) && StripNonDigits(r) == StripNonDigits(phoneNumber)
  {
    var d := StripNonDigits(phoneNumber);
    assert FormatPhoneNumber(phoneNumber) == "(" + d[0..3] + ") " + d[3..6] + "-" + d[6..10];
    UsLayoutOf(d[0..3], d[3..6], d[6..10]);
    TenDigits(d);
  }

  /** The digits of the layout of ten digits are those digits. */
  lemma {:induction false} TenDigits(d: string)
    requires |d| == 10 && AllDigits(d)
    ensures StripNonDigits("(" + d[0..3] + ") " + d[3..6] + "-" + d[6..10]) == d
  {
    StripNonDigitsAppendPunctuation([], "(");
    assert [] + "(" == "(";
    DigitsOfLayout("(", d[0..3], d[3..6], d[6..10]);
    assert d[0..3] + d[3..6] + d[6..10] == d;
  }

  /** Eleven digits with a leading 1: `+1 ` followed by the US layout of
      digits 1..10; the digits of the result are the cleaned digits. */
  lemma {:induction false} FormatPhoneNumberEleven(phoneNumber: string)
    requires var d := StripNonDigits(phoneNumber); |d| == 11 && d[0] == '1'
    ensures var r := FormatPhoneNumber(phoneNumber);
            && |r| == 17 && r[..3] == "+1 " && IsUsLayout(r[3..])
            && StripNonDigits(r) == StripNonDigits(phoneNumber)
  {
    var d := StripNonDigits(phoneNumber);
    var r := FormatPhoneNumber(phoneNumber);
    assert r == "+1 (" + d[1..4] + ") " + d[4..7] + "-" + d[7..11];
    assert r[3..] == "(" + d[1..4] + ") " + d[4..7] + "-" + d[7..11];
    UsLayoutOf(d[1..4], d[4..7], d[7..11]);
    ElevenDigits(d);
  }

  /** Three, three and four digits in the layout of `(ddd) ddd-dddd`. */
  lemma {:induction false} UsLayoutOf(a: string, b: string, c: string)
    requires |a| == 3 && |b| == 3 && |c| == 4
    requires AllDigits(a) && AllDigits(b) && AllDigits(c)
    ensures IsUsLayout("(" + a + ") " + b + "-" + c)
  {
    var r := "(" + a + ") " + b + "-" + c;
    assert r[1..4] == a && r[6..9] == b && r[10..14] == c;
  }

  /** The digits of the `+1` layout of eleven digits are those digits. */
  lemma {:induction false} ElevenDigits(d: string)
    requires |d| == 11 && d[0] == '1' && AllDigits(d)
    ensures StripNonDigits("+1 (" + d[1..4] + ") " + d[4..7] + "-" + d[7..11]) == d
  {
    PlusOneDigits();
    DigitsOfLayout("+1 (", d[1..4], d[4..7], d[7..11]);
    assert "1" + d[1..4] + d[4..7] + d[7..11] == d;
  }

  lemma {:induction false} PlusOneDigits()
    ensures StripNonDigits("+1 (") == "1"
  {
    StripNonDigitsAppendPunctuation([], "+");
    assert [] + "+" == "+";
    StripNonDigitsAppendDigits("+", "1");
    StripNonDigitsAppendPunctuation("+1", " (");
    assert "+" + "1" == "+1" && "+1" + " (" == "+1 (";
  }

  /** Any other digit count (11 digits not starting with 1 included):
      the ORIGINAL input, not the cleaned digits. */
  lemma {:induction false} FormatPhoneNumberOther(phoneNumber: string)
    requires var d := StripNonDigits(phoneNumber);
             |d| != 10 && !(|d| == 11 && d[0] == '1')
    ensures FormatPhoneNumber(phoneNumber) == phoneNumber
  {
  }

  /** Formatting never changes the digits of a number. */
  lemma {:induction false} FormatPhoneNumberKeepsDigits(phoneNumber: string)
    ensures StripNonDigits(FormatPhoneNumber(phoneNumber)) == StripNonDigits(phoneNumber)
  {
    var d := StripNonDigits(phoneNumber);
    if |d| == 10 {
      FormatPhoneNumberTen(phoneNumber);
    } else if |d| == 11 && d[0] == '1' {
      FormatPhoneNumberEleven(phoneNumber);
    }
  }

  lemma {:induction false} FormatPhoneNumberIdempotent(phoneNumber: string)
    ensures FormatPhoneNumber(FormatPhoneNumber(phoneNumber)) == FormatPhoneNumber(phoneNumber)
  {
    FormatPhoneNumberKeepsDigits(phoneNumber);
  }

  // =====================================================================
  // formatDuration
  // =====================================================================

  /** `n.toString().padStart(2, '0')`. */
  function Pad2(n: nat): string {
    PadStart(NatToString(n), 2, '0')
  }

  /** `formatDuration` on whole, non-negative seconds. */
  function FormatDuration(durationInSeconds: nat): string {
    if durationInSeconds < 60 then
      NatToString(durationInSeconds) + " sec"
    else
      var minutes := durationInSeconds / 60;
      var seconds := durationInSeconds % 60;
      if minutes < 60 then
        NatToString(minutes) + ":" + Pad2(seconds)
      else
        var hours := minutes / 60;
        var remainingMinutes := minutes % 60;
        NatToString(hours) + ":" + Pad2(remainingMinutes) + ":" + Pad2(seconds)
  }

  /** A non-empty field of decimal digits. */
  function ParseField(s: string): Option<nat> {
    if s != [] && AllDigits(s) then Some(DecimalValue(s)) else None
  }

  /** Reads a formatted duration back: `"<n> sec"`, `M:SS` or `H:MM:SS`. */
  function ParseDuration(text: string): Option<nat> {
    if EndsWith(text, " sec") then ParseField(text[..|text| - 4])
    else
      var f := Split(text, ':');
      if |f| == 2 && ParseField(f[0]).Some? && ParseField(f[1]).Some? then
        Some(60 * ParseField(f[0]).value + ParseField(f[1]).value)
      else if |f| == 3 && ParseField(f[0]).Some? && ParseField(f[1]).Some? && ParseField(f[2]).Some? then
        Some(3600 * ParseField(f[0]).value + 60 * ParseField(f[1]).value + ParseField(f[2]).value)
      else None
  }

  lemma {:induction false} NoColonInDigits(s: string)
    requires AllDigits(s)
    ensures ':' !in s
  {
    assert forall i :: 0 <= i < |s| ==> s[i] != ':';
  }

  /** Under a minute: `"<n> sec"`. */
  lemma {:induction false} FormatDurationSeconds(n: nat)
    requires n < 60
    ensures var r := FormatDuration(n);
            EndsWith(r, " sec") && r[..|r| - 4] == NatToString(n)
  {
    var r := FormatDuration(n);
    assert r[|r| - 4..] == " sec";
  }

  /** Two digit fields joined by a colon split back into those fields. */
  lemma {:induction false} SplitTwoFields(a: string, b: string)
    requires AllDigits(a) && AllDigits(b)
    ensures Split(a + ":" + b, ':') == [a, b]
  {
    NoColonInDigits(a);
    NoColonInDigits(b);
    SplitAfterField(a, ':', b);
    SplitWithout(b, ':');
  }

  /** Three digit fields joined by colons split back into those fields. */
  lemma {:induction false} SplitThreeFields(a: string, b: string, c: string)
    requires AllDigits(a) && AllDigits(b) && AllDigits(c)
    ensures Split(a + ":" + b + ":" + c, ':') == [a, b, c]
  {
    NoColonInDigits(a);
    assert a + ":" + b + ":" + c == a + [':'] + (b + ":" + c);
    SplitAfterField(a, ':', b + ":" + c);
    SplitTwoFields(b, c);
  }

  /** Under an hour: `M:SS`, the seconds field two digits below 60. */
  lemma {:induction false} FormatDurationMinutes(n: nat)
    requires 60 <= n < 3600
    ensures var f := Split(FormatDuration(n), ':');
            && |f| == 2 && f[0] == NatToString(n / 60)
            && |f[1]| == 2 && AllDigits(f[1]) && DecimalValue(f[1]) == n % 60 < 60
  {
    var minutes, seconds := n / 60, n % 60;
    assert FormatDuration(n) == NatToString(minutes) + ":" + Pad2(seconds);
    TwoDigits(seconds);
    SplitTwoFields(NatToString(minutes), Pad2(seconds));
  }

  /** An hour or more: `H:MM:SS`, minutes and seconds two digits below 60. */
  lemma {:induction false} FormatDurationHours(n: nat)
    requires 3600 <= n
    ensures var f := Split(FormatDuration(n), ':');
            && |f| == 3 && f[0] == NatToString(n / 60 / 60)
            && |f[1]| == 2 && AllDigits(f[1]) && DecimalValue(f[1]) == n / 60 % 60 < 60
            && |f[2]| == 2 && AllDigits(f[2]) && DecimalValue(f[2]) == n % 60 < 60
  {
    var minutes, seconds := n / 60, n % 60;
    var hours, rest := minutes / 60, minutes % 60;
    assert FormatDuration(n) == NatToString(hours) + ":" + Pad2(rest) + ":" + Pad2(seconds);
    TwoDigits(seconds);
    TwoDigits(rest);
    SplitThreeFields(NatToString(hours), Pad2(rest), Pad2(seconds));
  }

  /** The colon forms end in a digit, so they are never read as `"<n> sec"`. */
  lemma {:induction false} FormatDurationColonForm(n: nat)
    requires 60 <= n
    ensures !EndsWith(FormatDuration(n), " sec")
  {
    var r := FormatDuration(n);
    TwoDigits(n % 60);
    assert r[|r| - 1] == Pad2(n % 60)[1];
    assert IsDigit(r[|r| - 1]);
    assert |r| >= 4 ==> r[|r| - 4..][3] == r[|r| - 1];
  }

  /** The fields of the formatted duration reconstruct the number of seconds. */
  lemma {:induction false} FormatDurationRoundTrip(n: nat)
    ensures ParseDuration(FormatDuration(n)) == Some(n)
  {
    if n < 60 {
      FormatDurationSeconds(n);
      DecimalValueOfNatToString(n);
    } else if n < 3600 {
      RoundTripMinutes(n);
    } else {
      RoundTripHours(n);
    }
  }

  lemma {:induction false} RoundTripMinutes(n: nat)
    requires 60 <= n < 3600
    ensures ParseDuration(FormatDuration(n)) == Some(n)
  {
    var text := FormatDuration(n);
    FormatDurationColonForm(n);
    FormatDurationMinutes(n);
    var f := Split(text, ':');
    var m, sec := n / 60, n % 60;
    DecimalValueOfNatToString(m);
    assert ParseField(f[0]) == Some(m);
    assert ParseField(f[1]) == Some(sec);
    DivMod60(n);
    ParseTwoFields(text, m, sec, n);
  }

  lemma {:induction false} RoundTripHours(n: nat)
    requires 3600 <= n
    ensures ParseDuration(FormatDuration(n)) == Some(n)
  {
    var text := FormatDuration(n);
    FormatDurationColonForm(n);
    FormatDurationHours(n);
    var f := Split(text, ':');
    var h, m, sec := n / 60 / 60, n / 60 % 60, n % 60;
    DecimalValueOfNatToString(h);
    assert ParseField(f[0]) == Some(h);
    assert ParseField(f[1]) == Some(m);
    assert ParseField(f[2]) == Some(sec);
    DivMod3600(n);
    ParseThreeFields(text, h, m, sec, n);
  }

  /** Two colon-separated fields are read as minutes and seconds. */
  lemma {:induction false} ParseTwoFields(text: string, m: nat, sec: nat, total: nat)
    requires !EndsWith(text, " sec")
    requires var f := Split(text, ':');
             |f| == 2 && ParseField(f[0]) == Some(m) && ParseField(f[1]) == Some(sec)
    requires total == 60 * m + sec
    ensures ParseDuration(text) == Some(total)
  {
  }

  /** Three colon-separated fields are read as hours, minutes and seconds. */
  lemma {:induction false} ParseThreeFields(text: string, h: nat, m: nat, sec: nat, total: nat)
    requires !EndsWith(text, " sec")
    requires var f := Split(text, ':');
             |f| == 3 && ParseField(f[0]) == Some(h) && ParseField(f[1]) == Some(m)
             && ParseField(f[2]) == Some(sec)
    requires total == 3600 * h + 60 * m + sec
    ensures ParseDuration(text) == Some(total)
  {
  }

  lemma {:induction false} DivMod60(n: nat)
    ensures 60 * (n / 60) + n % 60 == n
  {
  }

  lemma {:induction false} DivMod3600(n: nat)
    ensures 3600 * (n / 60 / 60) + 60 * (n / 60 % 60) + n % 60 == n
  {
    var m := n / 60;
    DivMod60(n);
    DivMod60(m);
  }

  // =====================================================================
  // isLikelySpam
  // =====================================================================

  /** The default patterns `/^\+1800/`, `/^\+1888/`, `/^\+1877/`, each an
      anchored literal prefix. */
  const DefaultSpamPrefixes: seq<string> := ["+1800", "+1888", "+1877"]

  /** `patterns.some(pattern => pattern.test(number))` for anchored prefixes. */
  function MatchesSome(prefixes: seq<string>, number: string): bool {
    if prefixes == [] then false
    else StartsWith(number, prefixes[0]) || MatchesSome(prefixes[1..], number)
  }

  lemma {:induction false} MatchesSomeExists(prefixes: seq<string>, number: string)
    ensures MatchesSome(prefixes, number)
        <==> exists i :: 0 <= i < |prefixes| && StartsWith(number, prefixes[i])
  {
    if prefixes != [] {
      MatchesSomeExists(prefixes[1..], number);
      if MatchesSome(prefixes[1..], number) {
        var i :| 0 <= i < |prefixes[1..]| && StartsWith(number, prefixes[1..][i]);
        assert StartsWith(number, prefixes[i + 1]);
      }
      if exists i :: 0 <= i < |prefixes| && StartsWith(number, prefixes[i]) {
        var i :| 0 <= i < |prefixes| && StartsWith(number, prefixes[i]);
        if i > 0 {
          assert StartsWith(number, prefixes[1..][i - 1]);
        }
      }
    }
  }

  /** A score, when present, decides alone: strictly above 0.7. */
  function IsLikelySpam(callerNumber: string, spamScore: Option<real>,
                        knownSpamPrefixes: seq<string> := DefaultSpamPrefixes): (r: bool)
    ensures spamScore.Some? ==> (r <==> spamScore.value > 0.7)
  {
    if spamScore.Some? then spamScore.value > 0.7
    else MatchesSome(knownSpamPrefixes, callerNumber)
  }

  /** Without a score, the default patterns flag exactly the numbers that
      start with +1800, +1888 or +1877. */
  lemma {:induction false} IsLikelySpamDefaultPrefixes(callerNumber: string)
    ensures IsLikelySpam(callerNumber, None)
        <==> StartsWith(callerNumber, "+1800") || StartsWith(callerNumber, "+1888")
             || StartsWith(callerNumber, "+1877")
  {
    MatchesSomeExists(DefaultSpamPrefixes, callerNumber);
    if StartsWith(callerNumber, "+1800") {
      assert StartsWith(callerNumber, DefaultSpamPrefixes[0]);
    } else if StartsWith(callerNumber, "+1888") {
      assert StartsWith(callerNumber, DefaultSpamPrefixes[1]);
    } else if StartsWith(callerNumber, "+1877") {
      assert StartsWith(callerNumber, DefaultSpamPrefixes[2]);
    }
  }

  /** The score ignores the number: a score of exactly 0.7 is not spam,
      even for a toll-free number. */
  lemma {:induction false} IsLikelySpamThresholdExclusive()
    ensures !IsLikelySpam("+18005551234", Some(0.7))
    ensures IsLikelySpam("+18005551234", None)
  {
    IsLikelySpamDefaultPrefixes("+18005551234");
    assert "+18005551234"[..5] == "+1800";
  }

  // =====================================================================
  // slugify
  // =====================================================================

  /** JavaScript's `\w`: ASCII letters, digits and underscore. */
  predicate IsWordChar(c: char) {
    'a' <= c <= 'z' || IsUpper(c) || IsDigit(c) || c == '_'
  }

  /** The characters a slug may contain: `[a-z0-9_-]`. */
  predicate IsSlugChar(c: char) {
    'a' <= c <= 'z' || IsDigit(c) || c == '_' || c == '-'
  }

  predicate AllSlugChars(s: string) {
    forall i :: 0 <= i < |s| ==> IsSlugChar(s[i])
  }

  predicate NoDoubleDash(s: string) {
    forall i :: 0 <= i < |s| - 1 ==> !(s[i] == '-' && s[i + 1] == '-')
  }

  /** What `slugify` promises of its output. */
  predicate IsSlug(s: string) {
    && AllSlugChars(s)
    && NoDoubleDash(s)
    && (s != [] ==> s[0] != '-' && s[|s| - 1] != '-')
  }

  /** `.replace(/\s+/g, '-')`: each run of whitespace becomes one dash. */
  function ReplaceSpaceRuns(s: string): (r: string)
    ensures forall i :: 0 <= i < |r| ==> !IsSpace(r[i])
    ensures NoUpper(s) ==> NoUpper(r)
    decreases |s|
  {
    if s == [] then []
    else if IsSpace(s[0]) then "-" + ReplaceSpaceRuns(TrimStart(s[1..]))
    else [s[0]] + ReplaceSpaceRuns(s[1..])
  }

  /** `.replace(/[^\w-]+/g, '')`: drop every character outside `[A-Za-z0-9_-]`. */
  function RemoveNonWord(s: string): (r: string)
    ensures forall i :: 0 <= i < |r| ==> IsWordChar(r[i]) || r[i] == '-'
    ensures NoUpper(s) ==> AllSlugChars(r)
  {
    if s == [] then []
    else (if IsWordChar(s[0]) || s[0] == '-' then [s[0]] else []) + RemoveNonWord(s[1..])
  }

  predicate AllDashes(s: string) {
    forall i :: 0 <= i < |s| ==> s[i] == '-'
  }

  /** `.replace(/^-+/, '')`. */
  function TrimStartDashes(s: string): (r: string)
    ensures |r| <= |s| && r == s[|s| - |r|..]
    ensures AllDashes(s[..|s| - |r|])
    ensures r == [] || r[0] != '-'
    ensures AllSlugChars(s) ==> AllSlugChars(r)
    ensures NoDoubleDash(s) ==> NoDoubleDash(r)
  {
    if s == [] || s[0] != '-' then s
    else
      var r := TrimStartDashes(s[1..]);
      TrimStartDashesStep(s, r);
      r
  }

  /** One leading dash dropped: what holds of `s[1..]` and its trimmed suffix `r` holds of `s`. */
  lemma TrimStartDashesStep(s: string, r: string)
    requires s != [] && s[0] == '-'
    requires |r| <= |s| - 1 && r == s[1..][|s| - 1 - |r|..]
    requires AllDashes(s[1..][..|s| - 1 - |r|])
    requires AllSlugChars(s[1..]) ==> AllSlugChars(r)
    requires NoDoubleDash(s[1..]) ==> NoDoubleDash(r)
    ensures |r| <= |s| && r == s[|s| - |r|..]
    ensures AllDashes(s[..|s| - |r|])
    ensures AllSlugChars(s) ==> AllSlugChars(r)
    ensures NoDoubleDash(s) ==> NoDoubleDash(r)
  {
    assert s[..|s| - |r|] == [s[0]] + s[1..][..|s| - 1 - |r|];
  }

  /** `.replace(/-+$/, '')`. */
  function TrimEndDashes(s: string): (r: string)
    ensures |r| <= |s| && r == s[..|r|]
    ensures AllDashes(s[|r|..])
    ensures r == [] || r[|r| - 1] != '-'
    ensures (s == [] || s[0] != '-') ==> (r == [] || r[0] != '-')
    ensures AllSlugChars(s) ==> AllSlugChars(r)
    ensures NoDoubleDash(s) ==> NoDoubleDash(r)
  {
    if s != [] && s[|s| - 1] == '-' then
      var r := TrimEndDashes(s[..|s| - 1]);
      TrimEndDashesStep(s, r);
      r
    else s
  }

  /** One trailing dash dropped: what holds of `s[..|s| - 1]` and its trimmed prefix `r` holds of `s`. */
  lemma TrimEndDashesStep(s: string, r: string)
    requires s != [] && s[|s| - 1] == '-'
    requires |r| <= |s| - 1 && r == s[..|s| - 1][..|r|]
    requires AllDashes(s[..|s| - 1][|r|..])
    ensures r == s[..|r|]
    ensures AllDashes(s[|r|..])
    ensures s[..|s| - 1] == [] || s[..|s| - 1][0] == s[0]
    ensures AllSlugChars(s) ==> AllSlugChars(s[..|s| - 1])
    ensures NoDoubleDash(s) ==> NoDoubleDash(s[..|s| - 1])
  {
    assert s[|r|..] == s[..|s| - 1][|r|..] + [s[|s| - 1]];
  }

  /** `.replace(/--+/g, '-')`: every run of dashes becomes one dash. */
  function CollapseDashRuns(s: string): (r: string)
    ensures NoDoubleDash(r)
    ensures r == [] <==> s == []
    ensures r != [] ==> (r[0] == '-' <==> s[0] == '-')
    ensures AllSlugChars(s) ==> AllSlugChars(r)
    decreases |s|
  {
    if s == [] then []
    else if s[0] == '-' then "-" + CollapseDashRuns(TrimStartDashes(s[1..]))
    else [s[0]] + CollapseDashRuns(s[1..])
  }

  function Slugify(text: string): (r: string)
    ensures IsSlug(r)
  {
    var lowered := ToLower(text);
    var trimmed := Trim(lowered);
    var dashed := ReplaceSpaceRuns(trimmed);
    var words := RemoveNonWord(dashed);
    var collapsed := CollapseDashRuns(words);
    TrimEndDashes(TrimStartDashes(collapsed))
  }

  lemma {:induction false} ReplaceSpaceRunsWithoutSpace(s: string)
    requires forall i :: 0 <= i < |s| ==> !IsSpace(s[i])
    ensures ReplaceSpaceRuns(s) == s
  {
    if s != [] {
      ReplaceSpaceRunsWithoutSpace(s[1..]);
    }
  }

  /** A string of word characters and dashes is kept whole. */
  lemma {:induction false} RemoveNonWordKeeps(s: string)
    requires forall i :: 0 <= i < |s| ==> IsWordChar(s[i]) || s[i] == '-'
    ensures RemoveNonWord(s) == s
  {
    if s != [] {
      RemoveNonWordKeeps(s[1..]);
    }
  }

  /** A string with no word character and no dash is removed entirely. */
  lemma {:induction false} RemoveNonWordDrops(s: string)
    requires forall i :: 0 <= i < |s| ==> !IsWordChar(s[i]) && s[i] != '-'
    ensures RemoveNonWord(s) == []
  {
    if s != [] {
      RemoveNonWordDrops(s[1..]);
    }
  }

  // Sequence facts the run lemmas below rely on, stated apart from the
  // slug functions so that their proofs see no function definitions.

  lemma ConsSplit(w: string, u: string)
    requires w != []
    ensures (w + u)[0] == w[0] && (w + u)[1..] == w[1..] + u
  {
  }

  lemma ConsJoin(w: string, x: string)
    requires w != []
    ensures [w[0]] + (w[1..] + x) == w + x
  {
    assert w == [w[0]] + w[1..];
  }

  lemma AppendAssoc(x: string, y: string, z: string)
    ensures x + (y + z) == (x + y) + z
  {
  }

  /** Removal works character by character, so it distributes over
      concatenation; with the two lemmas above it pins `RemoveNonWord`. */
  lemma {:induction false} RemoveNonWordConcat(a: string, b: string)
    ensures RemoveNonWord(a + b) == RemoveNonWord(a) + RemoveNonWord(b)
  {
    if a == [] {
      assert a + b == b;
    } else {
      ConsSplit(a, b);
      RemoveNonWordConcat(a[1..], b);
      var k := if IsWordChar(a[0]) || a[0] == '-' then [a[0]] else [];
      AppendAssoc(k, RemoveNonWord(a[1..]), RemoveNonWord(b));
    }
  }

  predicate NoSpace(s: string) {
    forall i :: 0 <= i < |s| ==> !IsSpace(s[i])
  }

  /** Characters before the first whitespace are copied through. */
  lemma {:induction false} ReplaceSpaceRunsPrefix(w: string, u: string)
    requires NoSpace(w)
    ensures ReplaceSpaceRuns(w + u) == w + ReplaceSpaceRuns(u)
  {
    if w == [] {
      assert w + u == u;
    } else {
      ConsSplit(w, u);
      assert !IsSpace(w[0]) && NoSpace(w[1..]);
      ReplaceSpaceRunsPrefix(w[1..], u);
      ConsJoin(w, ReplaceSpaceRuns(u));
    }
  }

  /** A string opening with a whitespace run gives one `-` for the run. */
  lemma {:induction false} ReplaceSpaceRunsOfRun(ws: string, t: string)
    requires ws != [] && AllSpace(ws)
    requires t == [] || !IsSpace(t[0])
    ensures ReplaceSpaceRuns(ws + t) == "-" + ReplaceSpaceRuns(t)
  {
    var u := ws + t;
    assert u[0] == ws[0];
    assert u[1..] == ws[1..] + t;
    TrimStartAfterSpaces(ws[1..], t);
  }

  /** A whole run of whitespace, however long, becomes a single `-`. */
  lemma {:induction false} ReplaceSpaceRunsStep(w: string, ws: string, t: string)
    requires NoSpace(w)
    requires ws != [] && AllSpace(ws)
    requires t == [] || !IsSpace(t[0])
    ensures ReplaceSpaceRuns(w + ws + t) == w + "-" + ReplaceSpaceRuns(t)
  {
    calc {
      ReplaceSpaceRuns(w + ws + t);
      == { assert w + ws + t == w + (ws + t); }
      ReplaceSpaceRuns(w + (ws + t));
      == { ReplaceSpaceRunsPrefix(w, ws + t); }
      w + ReplaceSpaceRuns(ws + t);
      == { ReplaceSpaceRunsOfRun(ws, t); }
      w + ("-" + ReplaceSpaceRuns(t));
      == { assert w + ("-" + ReplaceSpaceRuns(t)) == w + "-" + ReplaceSpaceRuns(t); }
      w + "-" + ReplaceSpaceRuns(t);
    }
  }

  /** Characters before the first dash are copied through. */
  lemma {:induction false} CollapseDashRunsPrefix(w: string, u: string)
    requires '-' !in w
    ensures CollapseDashRuns(w + u) == w + CollapseDashRuns(u)
  {
    if w == [] {
      assert w + u == u;
    } else {
      ConsSplit(w, u);
      assert w[0] != '-' && '-' !in w[1..];
      CollapseDashRunsPrefix(w[1..], u);
      ConsJoin(w, CollapseDashRuns(u));
    }
  }

  /** A string opening with a run of dashes gives one `-` for the run. */
  lemma {:induction false} CollapseDashRunsOfRun(ds: string, t: string)
    requires ds != [] && AllDashes(ds)
    requires t == [] || t[0] != '-'
    ensures CollapseDashRuns(ds + t) == "-" + CollapseDashRuns(t)
  {
    var u := ds + t;
    assert u[0] == '-';
    assert u[1..] == ds[1..] + t;
    TrimStartDashesAfterDashes(ds[1..], t);
  }

  lemma {:induction false} TrimStartDashesAfterDashes(ds: string, t: string)
    requires AllDashes(ds)
    requires t == [] || t[0] != '-'
    ensures TrimStartDashes(ds + t) == t
  {
    if ds == [] {
      assert ds + t == t;
    } else {
      assert (ds + t)[1..] == ds[1..] + t;
      TrimStartDashesAfterDashes(ds[1..], t);
    }
  }

  /** A whole run of dashes, however long, becomes a single `-`. */
  lemma {:induction false} CollapseDashRunsStep(w: string, ds: string, t: string)
    requires '-' !in w
    requires ds != [] && AllDashes(ds)
    requires t == [] || t[0] != '-'
    ensures CollapseDashRuns(w + ds + t) == w + "-" + CollapseDashRuns(t)
  {
    calc {
      CollapseDashRuns(w + ds + t);
      == { assert w + ds + t == w + (ds + t); }
      CollapseDashRuns(w + (ds + t));
      == { CollapseDashRunsPrefix(w, ds + t); }
      w + CollapseDashRuns(ds + t);
      == { CollapseDashRunsOfRun(ds, t); }
      w + ("-" + CollapseDashRuns(t));
      == { assert w + ("-" + CollapseDashRuns(t)) == w + "-" + CollapseDashRuns(t); }
      w + "-" + CollapseDashRuns(t);
    }
  }

  lemma {:induction false} CollapseDashRunsWithoutRuns(s: string)
    requires NoDoubleDash(s)
    ensures CollapseDashRuns(s) == s
  {
    if s != [] {
      assert NoDoubleDash(s[1..]);
      if s[0] == '-' {
        assert s[1..] == [] || s[1..][0] != '-';
        assert TrimStartDashes(s[1..]) == s[1..];
      }
      CollapseDashRunsWithoutRuns(s[1..]);
    }
  }

  /** Every stage of the pipeline leaves a slug as it is. */
  lemma {:induction false} SlugifyOfSlug(s: string)
    requires IsSlug(s)
    ensures Slugify(s) == s
  {
    assert NoUpper(s);
    ToLowerOfNoUpper(s);
    TrimOfTrimmed(s);
    ReplaceSpaceRunsWithoutSpace(s);
    RemoveNonWordKeeps(s);
    CollapseDashRunsWithoutRuns(s);
  }

  lemma {:induction false} SlugifyIdempotent(text: string)
    ensures Slugify(Slugify(text)) == Slugify(text)
  {
    SlugifyOfSlug(Slugify(text));
  }

  // =====================================================================
  // truncateText
  // =====================================================================

  /** `text.slice(0, maxLength) + '...'` once the text is longer than
      `maxLength`; a negative `maxLength` counts from the end, as `slice` does. */
  function TruncateText(text: string, maxLength: int): (r: string)
    ensures |text| <= maxLength ==> r == text
    ensures 0 <= maxLength < |text| ==>
              r == text[..maxLength] + "..." && |r| == maxLength + 3
    ensures maxLength < 0 ==>
              r == text[..if |text| + maxLength < 0 then 0 else |text| + maxLength] + "..."
  {
    if |text| <= maxLength then text else JsSlice(text, 0, maxLength) + "..."
  }
}
