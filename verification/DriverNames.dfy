/** Driver names reduced to a comparable form: no case, no separators, no role suffix, no trailing digits. */
module DriverNames {

  const KNOWN_SUFFIXES: seq<string> := ["wildcard", "reserve", "res", "sub", "wc"]

  /** White space and line terminators. */
  predicate IsSpace(c: char) {
    || '\t' <= c <= '\r' || c == ' ' || c == '\U{00A0}' || c == '\U{1680}'
    || '\U{2000}' <= c <= '\U{200A}' || c == '\U{2028}' || c == '\U{2029}' || c == '\U{202F}'
    || c == '\U{205F}' || c == '\U{3000}' || c == '\U{FEFF}'
  }

  predicate IsSeparator(c: char) {
    IsSpace(c) || c == '_' || c == '-'
  }

  predicate IsDigit(c: char) {
    '0' <= c <= '9'
  }

  function ToLower(c: char): char {
    if 'A' <= c <= 'Z' then (c as int + 32) as char else c
  }

  function Lower(s: string): (r: string)
    ensures |r| == |s| && forall i :: 0 <= i < |s| ==> r[i] == ToLower(s[i])
  {
    if s == "" then "" else [ToLower(s[0])] + Lower(s[1..])
  }

  function TrimStart(s: string): string {
    if s != "" && IsSpace(s[0]) then TrimStart(s[1..]) else s
  }

  function TrimEnd(s: string): string {
    if s != "" && IsSpace(s[|s| - 1]) then TrimEnd(s[..|s| - 1]) else s
  }

  function Trim(s: string): string {
    TrimEnd(TrimStart(s))
  }

  /** The longest ending without a separator. */
  function LastWord(s: string): (w: string)
    ensures |w| <= |s|
  {
    if s == "" || IsSeparator(s[|s| - 1]) then "" else LastWord(s[..|s| - 1]) + [s[|s| - 1]]
  }

  /** The text without the separators it ends with. */
  function DropSeparators(s: string): string {
    if s != "" && IsSeparator(s[|s| - 1]) then DropSeparators(s[..|s| - 1]) else s
  }

  /** A role suffix set off by separators is taken away, with the separators. */
  function StripSuffix(s: string): string {
    var t := TrimEnd(s);
    var word := LastWord(t);
    var stem := t[..|t| - |word|];
    if word in KNOWN_SUFFIXES && stem != "" then DropSeparators(stem) else s
  }

  function RemoveSeparators(s: string): string {
    if s == "" then "" else (if IsSeparator(s[0]) then "" else [s[0]]) + RemoveSeparators(s[1..])
  }

  function StripDigits(s: string): string {
    if s != "" && IsDigit(s[|s| - 1]) then StripDigits(s[..|s| - 1]) else s
  }

  function Normalize(name: string): string {
    var base := RemoveSeparators(StripSuffix(Lower(Trim(name))));
    var stripped := StripDigits(base);
    if stripped != "" then stripped else base
  }

  // ---------------------------------------------------------------------------------------------
  // The suffix pattern
  // ---------------------------------------------------------------------------------------------

  /** The pattern: separators, a known suffix, then nothing but white space. */
  ghost predicate MatchesAs(s: string, i: nat, j: nat, k: nat) {
    && i < j <= k <= |s|
    && (forall x :: i <= x < j ==> IsSeparator(s[x]))
    && s[j..k] in KNOWN_SUFFIXES
    && (forall x :: k <= x < |s| ==> IsSpace(s[x]))
  }

  ghost predicate MatchesAt(s: string, i: nat) {
    exists j, k :: MatchesAs(s, i, j, k)
  }

  lemma {:induction false} KnownSuffixIsLetters(w: string)
    requires w in KNOWN_SUFFIXES
    ensures w != "" && forall i :: 0 <= i < |w| ==> 'a' <= w[i] <= 'z' && !IsSeparator(w[i])
  {
  }

  lemma {:induction false} TrimEndIs(s: string, k: nat)
    requires k <= |s| && forall x :: k <= x < |s| ==> IsSpace(s[x])
    requires k == 0 || !IsSpace(s[k - 1])
    ensures TrimEnd(s) == s[..k]
  {
    if k < |s| {
      TrimEndIs(s[..|s| - 1], k);
      assert s[..|s| - 1][..k] == s[..k];
    } else {
      assert s[..k] == s;
    }
  }

  lemma {:induction false} TrimEndFacts(s: string)
    ensures |TrimEnd(s)| <= |s| && TrimEnd(s) == s[..|TrimEnd(s)|]
    ensures forall x :: |TrimEnd(s)| <= x < |s| ==> IsSpace(s[x])
    ensures TrimEnd(s) == "" || !IsSpace(TrimEnd(s)[|TrimEnd(s)| - 1])
  {
    if s != "" && IsSpace(s[|s| - 1]) {
      TrimEndFacts(s[..|s| - 1]);
    }
  }

  lemma {:induction false} LastWordIs(s: string, j: nat)
    requires j <= |s| && forall x :: j <= x < |s| ==> !IsSeparator(s[x])
    requires j == 0 || IsSeparator(s[j - 1])
    ensures LastWord(s) == s[j..]
  {
    if j < |s| {
      LastWordIs(s[..|s| - 1], j);
      assert s[..|s| - 1][j..] + [s[|s| - 1]] == s[j..];
    }
  }

  lemma {:induction false} LastWordFacts(s: string)
    ensures LastWord(s) == s[|s| - |LastWord(s)|..]
    ensures |LastWord(s)| < |s| ==> IsSeparator(s[|s| - |LastWord(s)| - 1])
    ensures forall x :: |s| - |LastWord(s)| <= x < |s| ==> !IsSeparator(s[x])
  {
    if s != "" && !IsSeparator(s[|s| - 1]) {
      LastWordFacts(s[..|s| - 1]);
    }
  }

  lemma {:induction false} DropSeparatorsIs(s: string, i: nat)
    requires i <= |s| && forall x :: i <= x < |s| ==> IsSeparator(s[x])
    ensures |DropSeparators(s)| <= i && DropSeparators(s) == s[..|DropSeparators(s)|]
    ensures forall x :: |DropSeparators(s)| <= x < |s| ==> IsSeparator(s[x])
    ensures i > 0 && !IsSeparator(s[i - 1]) ==> DropSeparators(s) == s[..i]
  {
    if s != "" && IsSeparator(s[|s| - 1]) {
      DropSeparatorsIs(s[..|s| - 1], if i == |s| then i - 1 else i);
    }
  }

  /** Wherever the pattern matches, stripping cuts the text at or before that place, where it matches too. */
  lemma {:induction false} StripsAtOrBefore(s: string, i: nat, j: nat, k: nat)
    requires MatchesAs(s, i, j, k)
    ensures |StripSuffix(s)| <= i && StripSuffix(s) == s[..|StripSuffix(s)|]
    ensures MatchesAs(s, |StripSuffix(s)|, j, k)
  {
    StripIs(s, i, j, k);
    DropSeparatorsIs(s[..j], i);
  }

  lemma {:induction false} StripIs(s: string, i: nat, j: nat, k: nat)
    requires MatchesAs(s, i, j, k)
    ensures StripSuffix(s) == DropSeparators(s[..j])
  {
    KnownSuffixIsLetters(s[j..k]);
    assert s[k - 1] == s[j..k][k - j - 1];
    TrimEndIs(s, k);
    var t := s[..k];
    forall x | j <= x < k
      ensures !IsSeparator(t[x])
    {
      assert t[x] == s[j..k][x - j];
    }
    LastWordIs(t, j);
    assert t[j..] == s[j..k];
    assert t[..|t| - |t[j..]|] == s[..j];
  }

  lemma {:induction false} StrippedMatches(s: string)
    requires StripSuffix(s) != s
    ensures MatchesAt(s, |StripSuffix(s)|)
  {
    var t := TrimEnd(s);
    var stem := t[..|t| - |LastWord(t)|];
    TrimEndFacts(s);
    LastWordFacts(t);
    DropSeparatorsIs(stem, |stem| - 1);
    assert s[|stem|..|t|] == LastWord(t);
    assert MatchesAs(s, |StripSuffix(s)|, |stem|, |t|);
  }

  /** Stripping is replacing the leftmost match of the pattern by nothing. */
  lemma {:induction false} StripSuffixIsLeftmostMatch(s: string)
    ensures (exists i :: MatchesAt(s, i)) ==> MatchesAt(s, |StripSuffix(s)|)
    ensures (forall i :: !MatchesAt(s, i)) ==> StripSuffix(s) == s
    ensures forall i :: MatchesAt(s, i) ==> |StripSuffix(s)| <= i && StripSuffix(s) == s[..|StripSuffix(s)|]
  {
    forall i | MatchesAt(s, i)
      ensures |StripSuffix(s)| <= i && StripSuffix(s) == s[..|StripSuffix(s)|] && MatchesAt(s, |StripSuffix(s)|)
    {
      var j, k :| MatchesAs(s, i, j, k);
      StripsAtOrBefore(s, i, j, k);
    }
    if StripSuffix(s) != s {
      StrippedMatches(s);
    }
  }

  // ---------------------------------------------------------------------------------------------
  // Normal forms
  // ---------------------------------------------------------------------------------------------

  /** Lower case and free of separators. */
  ghost predicate Reduced(s: string) {
    forall i :: 0 <= i < |s| ==> ToLower(s[i]) == s[i] && !IsSeparator(s[i])
  }

  lemma {:induction false} RemoveSeparatorsReduces(s: string)
    requires forall i :: 0 <= i < |s| ==> ToLower(s[i]) == s[i]
    ensures Reduced(RemoveSeparators(s))
  {
    if s != "" {
      RemoveSeparatorsReduces(s[1..]);
    }
  }

  lemma {:induction false} RemoveSeparatorsKeeps(s: string)
    requires Reduced(s)
    ensures RemoveSeparators(s) == s
  {
    if s != "" {
      RemoveSeparatorsKeeps(s[1..]);
      assert s == [s[0]] + s[1..];
    }
  }

  lemma {:induction false} StripSuffixPrefix(s: string)
    ensures |StripSuffix(s)| <= |s| && StripSuffix(s) == s[..|StripSuffix(s)|]
  {
    var t := TrimEnd(s);
    var stem := t[..|t| - |LastWord(t)|];
    TrimEndFacts(s);
    DropSeparatorsIs(stem, |stem|);
  }

  lemma {:induction false} StripDigitsFacts(s: string)
    ensures |StripDigits(s)| <= |s| && StripDigits(s) == s[..|StripDigits(s)|]
    ensures StripDigits(StripDigits(s)) == StripDigits(s)
  {
    if s != "" && IsDigit(s[|s| - 1]) {
      StripDigitsFacts(s[..|s| - 1]);
    }
  }

  lemma {:induction false} NormalizeReduces(name: string)
    ensures Reduced(Normalize(name))
    ensures StripDigits(Normalize(name)) in {"", Normalize(name)}
  {
    var lowered := Lower(Trim(name));
    StripSuffixPrefix(lowered);
    forall i | 0 <= i < |StripSuffix(lowered)|
      ensures ToLower(StripSuffix(lowered)[i]) == StripSuffix(lowered)[i]
    {
      assert StripSuffix(lowered)[i] == lowered[i];
    }
    RemoveSeparatorsReduces(StripSuffix(lowered));
    StripDigitsFacts(RemoveSeparators(StripSuffix(lowered)));
  }

  /** A capital, white space, an underscore or a hyphen. */
  ghost predicate IsReducible(c: char) {
    || 'A' <= c <= 'Z' || c == '_' || c == '-'
    || '\t' <= c <= '\r' || c == ' ' || c == '\U{00A0}' || c == '\U{FEFF}'
  }

  /** None of these is left in a normal form. */
  lemma {:induction false} NothingReducibleIsLeft(name: string)
    ensures forall i :: 0 <= i < |Normalize(name)| ==> !IsReducible(Normalize(name)[i])
  {
    var r := Normalize(name);
    NormalizeReduces(name);
    forall i | 0 <= i < |r|
      ensures !IsReducible(r[i])
    {
      assert ToLower(r[i]) == r[i] && !IsSeparator(r[i]);
    }
  }

  lemma {:induction false} ReducedIsTrimmed(s: string)
    requires Reduced(s)
    ensures Trim(s) == s && Lower(s) == s && StripSuffix(s) == s
  {
    assert s != "" ==> !IsSeparator(s[0]) && !IsSeparator(s[|s| - 1]);
    LastWordIs(s, 0);
    assert s[0..] == s;
    assert |LastWord(TrimEnd(s))| == |s|;
  }

  /** Normalizing a normalized name changes nothing. */
  lemma {:induction false} NormalizeIsIdempotent(name: string)
    ensures Normalize(Normalize(name)) == Normalize(name)
  {
    var r := Normalize(name);
    NormalizeReduces(name);
    ReducedIsTrimmed(r);
    RemoveSeparatorsKeeps(r);
  }

  lemma {:induction false} LowerConcat(s: string, t: string)
    ensures Lower(s + t) == Lower(s) + Lower(t)
  {
  }

  lemma {:induction false} TrimmedAlready(s: string)
    requires s == "" || (!IsSpace(s[0]) && !IsSpace(s[|s| - 1]))
    ensures Trim(s) == s
  {
  }

  lemma {:induction false} RoleIsStripped(name: string, separators: string, role: string)
    requires name != "" && !IsSeparator(name[|name| - 1]) && role in KNOWN_SUFFIXES
    requires separators != "" && forall i :: 0 <= i < |separators| ==> IsSeparator(separators[i])
    ensures StripSuffix(name + separators + role) == name
  {
    var full := name + separators + role;
    var n, m := |name|, |name| + |separators|;
    assert full[m..|full|] == role;
    forall x | n <= x < m
      ensures IsSeparator(full[x])
    {
      assert full[x] == separators[x - n];
    }
    assert MatchesAs(full, n, m, |full|);
    StripsAtOrBefore(full, n, m, |full|);
    assert full[n - 1] == name[n - 1];
    assert full[..n] == name;
  }

  lemma {:induction false} LowerOfSeparators(s: string)
    ensures forall i :: 0 <= i < |s| && IsSeparator(s[i]) ==> Lower(s)[i] == s[i]
  {
  }

  lemma {:induction false} RoleEndsInLetter(role: string)
    requires Lower(role) in KNOWN_SUFFIXES
    ensures role != "" && !IsSpace(role[|role| - 1])
  {
  }

  /** A role suffix of any case, set off by any separators, does not change the normal form of a plain name. */
  lemma {:induction false} RoleSuffixIsIgnored(name: string, separators: string, role: string)
    requires name != "" && !IsSpace(name[0]) && !IsSeparator(name[|name| - 1])
    requires separators != "" && forall i :: 0 <= i < |separators| ==> IsSeparator(separators[i])
    requires Lower(role) in KNOWN_SUFFIXES && StripSuffix(Lower(name)) == Lower(name)
    ensures Normalize(name + separators + role) == Normalize(name)
  {
    var full := name + separators + role;
    RoleEndsInLetter(role);
    assert full[|full| - 1] == role[|role| - 1];
    TrimmedAlready(full);
    TrimmedAlready(name);
    LowerConcat(name + separators, role);
    LowerConcat(name, separators);
    LowerOfSeparators(separators);
    RoleIsStripped(Lower(name), Lower(separators), Lower(role));
  }

  // ---------------------------------------------------------------------------------------------
  // What a normal form keeps
  // ---------------------------------------------------------------------------------------------

  /** The characters that are no separators, in lower case. */
  ghost function Kept(s: string): string {
    if s == "" then ""
    else Kept(s[..|s| - 1]) + if IsSeparator(s[|s| - 1]) then "" else [ToLower(s[|s| - 1])]
  }

  ghost predicate AllSpace(s: string) {
    forall i :: 0 <= i < |s| ==> IsSpace(s[i])
  }

  ghost predicate AllSeparators(s: string) {
    forall i :: 0 <= i < |s| ==> IsSeparator(s[i])
  }

  ghost predicate AllDigits(s: string) {
    forall i :: 0 <= i < |s| ==> '0' <= s[i] <= '9'
  }

  /** A name without white space at either end. */
  ghost predicate Tight(s: string) {
    s == "" || (!IsSpace(s[0]) && !IsSpace(s[|s| - 1]))
  }

  /** From `i` to the end: separators, then a role in any case. */
  ghost predicate EndsInRole(s: string, i: nat, j: nat) {
    && i < j <= |s| && AllSeparators(s[i..j])
    && Lower(s[j..]) in {"wildcard", "reserve", "res", "sub", "wc"}
  }

  /** `kept` is `stem` and then the digits it ends in. */
  ghost predicate SplitsAtDigits(kept: string, stem: string, digits: string) {
    kept == stem + digits && AllDigits(digits) && (stem == "" || !('0' <= stem[|stem| - 1] <= '9'))
  }

  lemma {:induction false} KeptConcat(a: string, b: string)
    ensures Kept(a + b) == Kept(a) + Kept(b)
    decreases |b|
  {
    if b == "" {
      assert a + b == a;
    } else {
      assert (a + b)[..|a + b| - 1] == a + b[..|b| - 1];
      KeptConcat(a, b[..|b| - 1]);
    }
  }

  lemma {:induction false} KeptOfSeparators(s: string)
    requires AllSeparators(s)
    ensures Kept(s) == ""
  {
    if s != "" {
      KeptOfSeparators(s[..|s| - 1]);
    }
  }

  lemma {:induction false} RemovedAreKept(s: string)
    ensures RemoveSeparators(Lower(s)) == Kept(s)
  {
    if s != "" {
      RemovedAreKept(s[1..]);
      KeptConcat([s[0]], s[1..]);
      assert s == [s[0]] + s[1..];
      KeptOfOne(s[0]);
      RemovedFromOneMore(ToLower(s[0]), Lower(s[1..]));
    }
  }

  lemma {:induction false} KeptOfOne(c: char)
    ensures Kept([c]) == if IsSeparator(c) then "" else [ToLower(c)]
  {
    assert [c][..0] == "" && Kept("") == "";
  }

  lemma {:induction false} RemovedFromOneMore(c: char, s: string)
    ensures RemoveSeparators([c] + s) == (if IsSeparator(c) then "" else [c]) + RemoveSeparators(s)
  {
    assert ([c] + s)[1..] == s;
  }

  lemma {:induction false} TrimStartIs(lead: string, t: string)
    requires AllSpace(lead) && (t == "" || !IsSpace(t[0]))
    ensures TrimStart(lead + t) == t
  {
    if lead == "" {
      assert lead + t == t;
    } else {
      assert (lead + t)[1..] == lead[1..] + t;
      TrimStartIs(lead[1..], t);
    }
  }

  lemma {:induction false} TrimOfSpace(s: string)
    requires AllSpace(s)
    ensures TrimStart(s) == ""
  {
    if s != "" {
      TrimOfSpace(s[1..]);
    }
  }

  lemma {:induction false} TrimIs(lead: string, t: string, trail: string)
    requires AllSpace(lead) && AllSpace(trail) && Tight(t)
    ensures Trim(lead + t + trail) == t
  {
    if t == "" {
      TrimOfSpace(lead + t + trail);
    } else {
      assert lead + t + trail == lead + (t + trail);
      TrimStartIs(lead, t + trail);
      TrimEndIs(t + trail, |t|);
    }
  }

  lemma {:induction false} DigitsAreStripped(stem: string, digits: string)
    requires AllDigits(digits) && (stem == "" || !('0' <= stem[|stem| - 1] <= '9'))
    ensures StripDigits(stem + digits) == stem
    decreases |digits|
  {
    if digits == "" {
      assert stem + digits == stem;
    } else {
      assert (stem + digits)[..|stem + digits| - 1] == stem + digits[..|digits| - 1];
      DigitsAreStripped(stem, digits[..|digits| - 1]);
    }
  }

  lemma {:induction false} RoleWords(w: string)
    ensures w in KNOWN_SUFFIXES <==> w in {"wildcard", "reserve", "res", "sub", "wc"}
  {
    assert KNOWN_SUFFIXES[0] == "wildcard" && KNOWN_SUFFIXES[1] == "reserve" && KNOWN_SUFFIXES[2] == "res";
    assert KNOWN_SUFFIXES[3] == "sub" && KNOWN_SUFFIXES[4] == "wc";
  }

  lemma {:induction false} MatchReachesTheEnd(t: string, i: nat, j: nat, k: nat)
    requires Tight(t) && MatchesAs(Lower(t), i, j, k)
    ensures k == |t|
  {
    assert ToLower(t[|t| - 1]) == Lower(t)[|t| - 1];
  }

  lemma {:induction false} MatchIsRole(t: string, i: nat, j: nat)
    requires MatchesAs(Lower(t), i, j, |t|)
    ensures EndsInRole(t, i, j)
  {
    var s := Lower(t);
    assert s[j..] == s[j..|t|];
    RoleWords(s[j..]);
    LowerOfEnd(t, j);
    forall x | i <= x < j
      ensures IsSeparator(t[x])
    {
      assert ToLower(t[x]) == s[x];
    }
  }

  lemma {:induction false} NoRoleToStrip(t: string)
    requires Tight(t) && forall i: nat, j: nat :: !EndsInRole(t, i, j)
    ensures StripSuffix(Lower(t)) == Lower(t)
  {
    forall i: nat, j: nat, k: nat | MatchesAs(Lower(t), i, j, k)
      ensures false
    {
      MatchReachesTheEnd(t, i, j, k);
      MatchIsRole(t, i, j);
    }
    StripSuffixIsLeftmostMatch(Lower(t));
  }

  lemma {:induction false} LowerOfEnd(t: string, j: nat)
    requires j <= |t|
    ensures Lower(t)[j..] == Lower(t[j..])
  {
  }

  /**
   A name that ends in no role: its normal form is what it has besides separators, in lower case and without the
   digits it then ends in, unless there is nothing but digits.
   */
  lemma {:induction false} PlainNormalForm(lead: string, name: string, trail: string, stem: string, digits: string)
    requires AllSpace(lead) && AllSpace(trail) && Tight(name)
    requires forall i: nat, j: nat :: !EndsInRole(name, i, j)
    requires SplitsAtDigits(Kept(name), stem, digits)
    ensures Normalize(lead + name + trail) == if stem != "" then stem else digits
  {
    TrimIs(lead, name, trail);
    NoRoleToStrip(name);
    RemovedAreKept(name);
    NormalFormOf(lead + name + trail, stem, digits);
  }

  lemma {:induction false} NormalFormOf(name: string, stem: string, digits: string)
    requires SplitsAtDigits(RemoveSeparators(StripSuffix(Lower(Trim(name)))), stem, digits)
    ensures Normalize(name) == if stem != "" then stem else digits
  {
    DigitsAreStripped(stem, digits);
    assert "" + digits == digits;
  }

  /** A name that ends in a role: the same of what stands before the role and the separators. */
  lemma {:induction false} RoleNormalForm(lead: string, name: string, separators: string, role: string, trail: string,
          stem: string, digits: string)
    requires AllSpace(lead) && AllSpace(trail) && separators != "" && AllSeparators(separators)
    requires name != "" && !IsSpace(name[0]) && !IsSeparator(name[|name| - 1])
    requires Lower(role) in {"wildcard", "reserve", "res", "sub", "wc"}
    requires SplitsAtDigits(Kept(name), stem, digits)
    ensures Normalize(lead + (name + separators + role) + trail) == if stem != "" then stem else digits
  {
    var full := name + separators + role;
    RoleWords(Lower(role));
    RoleEndsInLetter(role);
    assert full[|full| - 1] == role[|role| - 1];
    TrimIs(lead, full, trail);
    LoweredRoleIsStripped(name, separators, role);
    RemovedAreKept(name);
    NormalFormOf(lead + full + trail, stem, digits);
  }

  lemma {:induction false} LoweredRoleIsStripped(name: string, separators: string, role: string)
    requires separators != "" && AllSeparators(separators) && Lower(role) in KNOWN_SUFFIXES
    requires name != "" && !IsSeparator(name[|name| - 1])
    ensures StripSuffix(Lower(name + separators + role)) == Lower(name)
  {
    LowerConcat(name + separators, role);
    LowerConcat(name, separators);
    LowerOfSeparators(separators);
    RoleIsStripped(Lower(name), Lower(separators), Lower(role));
  }

  lemma {:induction false} KeptOfPlain(name: string)
    requires forall i :: 0 <= i < |name| ==> !IsSeparator(name[i])
    ensures Kept(name) == Lower(name)
  {
    RemovedAreKept(name);
    LowerIsReduced(name, Lower(name));
    RemoveSeparatorsKeeps(Lower(name));
  }

  lemma {:induction false} LowerChar(c: char)
    ensures ToLower(ToLower(c)) == ToLower(c) && (IsSeparator(ToLower(c)) <==> IsSeparator(c))
  {
  }

  lemma {:induction false} LowerIsReduced(name: string, lowered: string)
    requires |lowered| == |name|
    requires forall i :: 0 <= i < |name| ==> lowered[i] == ToLower(name[i]) && !IsSeparator(name[i])
    ensures Reduced(lowered)
  {
    forall i | 0 <= i < |lowered|
      ensures ToLower(lowered[i]) == lowered[i] && !IsSeparator(lowered[i])
    {
      LowerChar(name[i]);
    }
  }

  lemma {:induction false} PlainHasNoRole(name: string)
    requires forall i :: 0 <= i < |name| ==> !IsSeparator(name[i])
    ensures forall i: nat, j: nat :: !EndsInRole(name, i, j)
  {
    forall i: nat, j: nat
      ensures !EndsInRole(name, i, j)
    {
      if i < j <= |name| {
        assert name[i..j][0] == name[i];
      }
    }
  }

  lemma {:induction false} PlainSplits(name: string, digits: string)
    requires forall i :: 0 <= i < |name| ==> !IsSeparator(name[i])
    requires AllDigits(digits) && (name == "" || !('0' <= name[|name| - 1] <= '9'))
    ensures SplitsAtDigits(Kept(name + digits), Lower(name), digits)
  {
    KeptOfPlain(name);
    KeptOfPlain(digits);
    KeptConcat(name, digits);
    LowerOfDigits(digits);
    if name != "" {
      assert Lower(name)[|name| - 1] == ToLower(name[|name| - 1]);
    }
  }

  lemma {:induction false} PlainThenDigits(name: string, digits: string)
    requires (forall i :: 0 <= i < |name| ==> !IsSeparator(name[i])) && AllDigits(digits)
    ensures forall i :: 0 <= i < |name + digits| ==> !IsSeparator((name + digits)[i])
  {
    forall i | 0 <= i < |name + digits|
      ensures !IsSeparator((name + digits)[i])
    {
      assert (name + digits)[i] == if i < |name| then name[i] else digits[i - |name|];
    }
  }

  ghost predicate IsLoweredChar(r: char, c: char) {
    if 'A' <= c <= 'Z' then r as int - 'a' as int == c as int - 'A' as int else r == c
  }

  /** The same letters in lower case, and everything else as it is. */
  ghost predicate IsLowered(r: string, s: string) {
    && |r| == |s|
    && forall i :: 0 <= i < |s| ==> IsLoweredChar(r[i], s[i])
  }

  lemma {:induction false} LowerLowers(s: string)
    ensures IsLowered(Lower(s), s)
  {
    forall i | 0 <= i < |s|
      ensures IsLoweredChar(Lower(s)[i], s[i])
    {
      assert Lower(s)[i] == ToLower(s[i]);
    }
  }

  /** A name without separators, followed by digits: the name in lower case, or the digits if there is no name. */
  lemma {:induction false} PlainNameIsKept(name: string, digits: string)
    requires forall i :: 0 <= i < |name| ==> !IsSeparator(name[i])
    requires AllDigits(digits) && (name == "" || !('0' <= name[|name| - 1] <= '9'))
    ensures if name != "" then IsLowered(Normalize(name + digits), name) else Normalize(digits) == digits
  {
    LowerLowers(name);
    assert name == "" ==> name + digits == digits;
    PlainThenDigits(name, digits);
    PlainSplits(name, digits);
    PlainNormalFormOf(name + digits, Lower(name), digits);
    assert |Lower(name)| == |name|;
  }

  lemma {:induction false} PlainNormalFormOf(name: string, stem: string, digits: string)
    requires forall i :: 0 <= i < |name| ==> !IsSeparator(name[i])
    requires SplitsAtDigits(Kept(name), stem, digits)
    ensures Normalize(name) == if stem != "" then stem else digits
  {
    PlainHasNoRole(name);
    PlainNormalForm("", name, "", stem, digits);
    assert "" + name + "" == name;
  }

  lemma {:induction false} LowerOfDigits(digits: string)
    requires AllDigits(digits)
    ensures Lower(digits) == digits
  {
  }

  /** Separators inside a name are removed, whatever stands around them. */
  lemma {:induction false} SeparatorsAreRemoved(a: string, separators: string, b: string)
    requires AllSeparators(separators)
    ensures Kept(a + separators + b) == Kept(a + b)
  {
    KeptConcat(a + separators, b);
    KeptConcat(a, separators);
    KeptConcat(a, b);
    KeptOfSeparators(separators);
  }
}
