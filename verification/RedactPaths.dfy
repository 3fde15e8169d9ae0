/**
 Path redaction: workspace roots and the home directory are replaced by tokens,
 one needle after the other, longest first. The question is whether replacing a
 later needle can bring an earlier one back.
 */
module RedactPaths {
  import opened Common
  import opened Order

  datatype Token = Ws | Home

  function Text(token: Token): string {
    match token
    case Ws => "<WS>"
    case Home => "<HOME>"
  }

  datatype Entry = Entry(needle: string, token: Token)

  // ------------------------------------------------------------ occurrences and replacement

  predicate OccursAt(needle: string, text: string, i: int) {
    0 <= i <= |text| - |needle| && text[i..i + |needle|] == needle
  }

  predicate Occurs(needle: string, text: string) {
    exists i | 0 <= i <= |text| :: OccursAt(needle, text, i)
  }

  /** The first occurrence. */
  function FindFrom(text: string, needle: string, from: nat): (r: Option<nat>)
    requires from <= |text|
    ensures r.None? ==> forall j | from <= j :: !OccursAt(needle, text, j)
    ensures r.Some? ==> r.value >= from && OccursAt(needle, text, r.value)
    ensures r.Some? ==> forall j | from <= j < r.value :: !OccursAt(needle, text, j)
    decreases |text| - from
  {
    if OccursAt(needle, text, from) then Some(from)
    else if from == |text| then None
    else FindFrom(text, needle, from + 1)
  }

  function Find(text: string, needle: string): (r: Option<nat>)
    ensures r.None? <==> !Occurs(needle, text)
    ensures r.Some? ==> OccursAt(needle, text, r.value) && forall j | 0 <= j < r.value :: !OccursAt(needle, text, j)
  {
    FindFrom(text, needle, 0)
  }

  /** `str::replace`: leftmost occurrences first, never overlapping. */
  function Replace(text: string, needle: string, token: string): string
    requires needle != ""
    decreases |text|
  {
    match Find(text, needle)
    case None => text
    case Some(i) => text[..i] + token + Replace(text[i + |needle|..], needle, token)
  }

  /** `matches().count()`. */
  function Count(text: string, needle: string): (n: nat)
    requires needle != ""
    ensures n == 0 <==> !Occurs(needle, text)
    decreases |text|
  {
    match Find(text, needle)
    case None => 0
    case Some(i) => 1 + Count(text[i + |needle|..], needle)
  }

  predicate NoAngles(s: string) {
    '<' !in s && '>' !in s
  }

  lemma {:induction false} OccursWithin(needle: string, part: string, a: string, b: string)
    requires Occurs(needle, part)
    ensures Occurs(needle, a + part + b)
  {
    var i :| 0 <= i <= |part| && OccursAt(needle, part, i);
    var whole := a + part + b;
    assert whole[|a| + i..|a| + i + |needle|] == part[i..i + |needle|];
    assert OccursAt(needle, whole, |a| + i);
  }

  /** A character the needle lacks is not inside an occurrence of it. */
  lemma {:induction false} NotInside(needle: string, text: string, i: int, k: int)
    requires OccursAt(needle, text, i) && 0 <= k < |text|
    ensures text[k] !in needle ==> k < i || i + |needle| <= k
  {
    if i <= k < i + |needle| {
      assert text[i..i + |needle|][k - i] == text[k];
    }
  }

  predicate IsAngle(c: char) {
    c == '<' || c == '>'
  }

  /** An angle bracket on either side of a seam keeps needles off it. */
  predicate Seam(a: string, b: string) {
    (a != "" && IsAngle(a[|a| - 1])) || (b != "" && IsAngle(b[0]))
  }

  /** An occurrence in a joined text is on one side of the seam. */
  lemma {:induction false} OnOneSide(a: string, b: string, needle: string, i: nat)
    requires needle != "" && NoAngles(needle) && Seam(a, b) && OccursAt(needle, a + b, i)
    ensures OccursAt(needle, a, i) || (i >= |a| && OccursAt(needle, b, i - |a|))
  {
    if a != "" && IsAngle(a[|a| - 1]) {
      NotInside(needle, a + b, i, |a| - 1);
    } else {
      NotInside(needle, a + b, i, |a|);
    }
    if i + |needle| <= |a| {
      assert a[i..i + |needle|] == (a + b)[i..i + |needle|];
    } else {
      assert b[i - |a|..i - |a| + |needle|] == (a + b)[i..i + |needle|];
    }
  }

  /** A token, or what later replacements made of it: the brackets at its ends stay. */
  predicate Bracketed(s: string) {
    |s| >= 2 && s[0] == '<' && s[|s| - 1] == '>'
  }

  /** Without angle brackets, a needle cannot straddle a bracketed part. */
  lemma {:induction false} NoStraddle(needle: string, a: string, t: string, b: string)
    requires needle != "" && NoAngles(needle) && Bracketed(t) && Occurs(needle, a + t + b)
    ensures Occurs(needle, a) || Occurs(needle, t) || Occurs(needle, b)
  {
    var i :| 0 <= i <= |a + t + b| && OccursAt(needle, a + t + b, i);
    OnOneSide(a + t, b, needle, i);
    if OccursAt(needle, a + t, i) {
      OnOneSide(a, t, needle, i);
    }
  }

  /** What occurs in a slice occurs in the whole. */
  lemma {:induction false} OccursInSlice(needle: string, text: string, lo: nat, hi: nat)
    requires lo <= hi <= |text| && Occurs(needle, text[lo..hi])
    ensures Occurs(needle, text)
  {
    OccursWithin(needle, text[lo..hi], text[..lo], text[hi..]);
    assert text[..lo] + text[lo..hi] + text[hi..] == text;
  }

  /** The text up to the first occurrence holds none. */
  lemma {:induction false} NoneBeforeFirst(text: string, needle: string, i: nat)
    requires needle != "" && Find(text, needle) == Some(i)
    ensures !Occurs(needle, text[..i])
  {
    forall j | 0 <= j <= i ensures !OccursAt(needle, text[..i], j) {
      if j + |needle| <= i {
        assert !OccursAt(needle, text, j);
        assert text[..i][j..j + |needle|] == text[j..j + |needle|];
      }
    }
  }

  /** What can occur after one replacement was there before, or comes with the token. */
  lemma {:induction false} ReplaceAddsOnlyTokens(text: string, needle: string, token: Token, other: string)
    requires needle != "" && other != "" && NoAngles(other)
    requires Occurs(other, Replace(text, needle, Text(token)))
    ensures (Occurs(other, text) && other != needle) || (Occurs(needle, text) && Occurs(other, Text(token)))
    decreases |text|
  {
    if Find(text, needle).Some? {
      var i := Find(text, needle).value;
      var j := i + |needle|;
      NoStraddle(other, text[..i], Text(token), Replace(text[j..], needle, Text(token)));
      NoneBeforeFirst(text, needle, i);
      assert text[0..i] == text[..i] && text[j..|text|] == text[j..];
      if Occurs(other, text[..i]) {
        OccursInSlice(other, text, 0, i);
      } else if Occurs(other, Replace(text[j..], needle, Text(token))) {
        ReplaceAddsOnlyTokens(text[j..], needle, token, other);
        if Occurs(other, text[j..]) {
          OccursInSlice(other, text, j, |text|);
        }
      }
    }
  }

  /** One replacement clears its needle exactly when the token does not bring it back. */
  lemma {:induction false} ReplaceClearsIff(text: string, needle: string, token: Token)
    requires needle != "" && NoAngles(needle)
    ensures Occurs(needle, Replace(text, needle, Text(token))) <==> Occurs(needle, text) && Occurs(needle, Text(token))
  {
    if Occurs(needle, Replace(text, needle, Text(token))) {
      ReplaceAddsOnlyTokens(text, needle, token, needle);
    } else if Occurs(needle, text) && Occurs(needle, Text(token)) {
      var i := Find(text, needle).value;
      OccursWithin(needle, Text(token), text[..i], Replace(text[i + |needle|..], needle, Text(token)));
    }
  }

  /** The text cut at the occurrences that are replaced. */
  function Split(text: string, needle: string): (parts: seq<string>)
    requires needle != ""
    ensures parts != []
    decreases |text|
  {
    match Find(text, needle)
    case None => [text]
    case Some(i) => [text[..i]] + Split(text[i + |needle|..], needle)
  }

  function Join(parts: seq<string>, between: string): string
    requires parts != []
  {
    if |parts| == 1 then parts[0] else parts[0] + between + Join(parts[1..], between)
  }

  lemma JoinCons(first: string, rest: seq<string>, between: string)
    requires rest != []
    ensures Join([first] + rest, between) == first + between + Join(rest, between)
  {
    assert ([first] + rest)[1..] == rest;
  }

  lemma FoundThere(text: string, needle: string, token: string, i: nat)
    requires needle != "" && Find(text, needle) == Some(i)
    ensures i + |needle| <= |text|
    ensures var tail := text[i + |needle|..];
            && text == text[..i] + needle + tail
            && Split(text, needle) == [text[..i]] + Split(tail, needle)
            && Count(text, needle) == 1 + Count(tail, needle)
            && Replace(text, needle, token) == text[..i] + token + Replace(tail, needle, token)
            && !Occurs(needle, text[..i])
  {
    NoneBeforeFirst(text, needle, i);
    assert text[i..i + |needle|] == needle;
    assert text == text[..i] + text[i..i + |needle|] + text[i + |needle|..];
  }

  lemma NotFound(text: string, needle: string, token: string)
    requires needle != "" && Find(text, needle).None?
    ensures Split(text, needle) == [text] && Count(text, needle) == 0 && Replace(text, needle, token) == text
    ensures Join([text], needle) == Join([text], token) == text
  {}

  /** A replacement keeps every part and puts one token for each occurrence: with the needle put back the text is there again. */
  lemma {:induction false} ReplaceKeepsTheRest(text: string, needle: string, token: string)
    requires needle != ""
    ensures Join(Split(text, needle), needle) == text
    ensures Join(Split(text, needle), token) == Replace(text, needle, token)
    ensures |Split(text, needle)| == Count(text, needle) + 1
    ensures forall part | part in Split(text, needle) :: !Occurs(needle, part)
    decreases |text|
  {
    hide Occurs, OccursAt, Split, Join, Count, Replace;
    match Find(text, needle)
    case None => NotFound(text, needle, token);
    case Some(i) =>
      FoundThere(text, needle, token, i);
      var tail := text[i + |needle|..];
      ReplaceKeepsTheRest(tail, needle, token);
      JoinCons(text[..i], Split(tail, needle), needle);
      JoinCons(text[..i], Split(tail, needle), token);
  }

  // ------------------------------------------------------------ the pass

  predicate Needles(paths: seq<Entry>) {
    forall k | 0 <= k < |paths| :: paths[k].needle != "" && NoAngles(paths[k].needle)
  }

  function Pass(text: string, paths: seq<Entry>): string
    requires Needles(paths)
    decreases |paths|
  {
    if paths == [] then text
    else Pass(Replace(text, paths[0].needle, Text(paths[0].token)), paths[1..])
  }

  function Hits(text: string, paths: seq<Entry>): nat
    requires Needles(paths)
    decreases |paths|
  {
    if paths == [] then 0
    else Count(text, paths[0].needle) + Hits(Replace(text, paths[0].needle, Text(paths[0].token)), paths[1..])
  }

  /** The first occurrence in a joined text is the first of the left part, or else that of the right. */
  lemma {:induction false} FindInParts(a: string, b: string, needle: string)
    requires needle != "" && NoAngles(needle) && Seam(a, b)
    ensures Find(a + b, needle) ==
            if Find(a, needle).Some? then Find(a, needle)
            else if Find(b, needle).Some? then Some(|a| + Find(b, needle).value) else None
  {
    var whole, inA, inB := a + b, Find(a, needle), Find(b, needle);
    if inA.Some? {
      assert whole[inA.value..inA.value + |needle|] == a[inA.value..inA.value + |needle|];
      assert OccursAt(needle, whole, inA.value);
    } else if inB.Some? {
      var k := |a| + inB.value;
      assert whole[k..k + |needle|] == b[inB.value..inB.value + |needle|];
      assert OccursAt(needle, whole, k);
    }
    var found := Find(whole, needle);
    if found.Some? {
      OnOneSide(a, b, needle, found.value);
    }
  }

  lemma ReplaceFirst(text: string, needle: string, token: string, i: nat)
    requires needle != "" && Find(text, needle) == Some(i)
    ensures i + |needle| <= |text|
    ensures Replace(text, needle, token) == text[..i] + token + Replace(text[i + |needle|..], needle, token)
  {}

  lemma {:induction false} ReplaceAtSeam(a: string, b: string, needle: string, token: string)
    requires needle != "" && NoAngles(needle) && Seam(a, b)
    ensures Replace(a + b, needle, token) == Replace(a, needle, token) + Replace(b, needle, token)
    decreases |a|
  {
    hide OccursAt, Occurs, Replace, Seam, NoAngles;
    var whole := a + b;
    FindInParts(a, b, needle);
    if Find(a, needle).Some? {
      var i := Find(a, needle).value;
      var j := i + |needle|;
      ReplaceFirst(a, needle, token, i);
      ReplaceFirst(whole, needle, token, i);
      assert whole[..i] == a[..i] && whole[j..] == a[j..] + b;
      SeamStays(a, b, needle, i);
      ReplaceAtSeam(a[j..], b, needle, token);
    } else {
      NothingToReplace(a, needle, token);
      if Find(b, needle).Some? {
        var i := Find(b, needle).value;
        ReplaceFirst(b, needle, token, i);
        ReplaceFirst(whole, needle, token, |a| + i);
        assert whole[..|a| + i] == a + b[..i] && whole[|a| + i + |needle|..] == b[i + |needle|..];
      } else {
        NothingToReplace(b, needle, token);
        NothingToReplace(whole, needle, token);
      }
    }
  }

  lemma NothingToReplace(text: string, needle: string, token: string)
    requires needle != "" && Find(text, needle).None?
    ensures Replace(text, needle, token) == text
  {}

  lemma SeamStays(a: string, b: string, needle: string, i: nat)
    requires needle != "" && NoAngles(needle) && Seam(a, b) && OccursAt(needle, a, i)
    ensures Seam(a[i + |needle|..], b)
  {
    if a != "" && IsAngle(a[|a| - 1]) {
      NotInside(needle, a, i, |a| - 1);
    }
  }

  lemma BracketIsKept(c: char, needle: string, token: string)
    requires needle != "" && NoAngles(needle) && IsAngle(c)
    ensures Replace([c], needle, token) == [c]
  {
    assert needle[0] in needle;
    assert [c][0..1][0] == c;
  }

  /** A replacement works before a bracketed part, inside it and after it. */
  lemma {:induction false} ReplaceInParts(a: string, t: string, b: string, needle: string, token: string)
    requires needle != "" && NoAngles(needle) && Bracketed(t)
    ensures Bracketed(Replace(t, needle, token))
    ensures Replace(a + t + b, needle, token) ==
            Replace(a, needle, token) + Replace(t, needle, token) + Replace(b, needle, token)
  {
    hide Replace, NoAngles;
    var inner := t[1..|t| - 1];
    assert t == ['<'] + inner + ['>'];
    assert (a + t)[|a + t| - 1] == '>' && (['<'] + inner + ['>'])[0] == '<';
    ReplaceAtSeam(a + t, b, needle, token);
    ReplaceAtSeam(a, t, needle, token);
    ReplaceAtSeam(['<'] + inner, ['>'], needle, token);
    ReplaceAtSeam(['<'], inner, needle, token);
    BracketIsKept('<', needle, token);
    BracketIsKept('>', needle, token);
  }

  /** So is a pass. */
  lemma {:induction false} PassInParts(a: string, t: string, b: string, paths: seq<Entry>)
    requires Needles(paths) && Bracketed(t)
    ensures Bracketed(Pass(t, paths))
    ensures Pass(a + t + b, paths) == Pass(a, paths) + Pass(t, paths) + Pass(b, paths)
    decreases |paths|
  {
    if paths != [] {
      var needle, token := paths[0].needle, paths[0].token;
      ReplaceInParts(a, t, b, needle, Text(token));
      PassInParts(
        Replace(a, needle, Text(token)), Replace(t, needle, Text(token)), Replace(b, needle, Text(token)), paths[1..]);
    }
  }

  /** No needle is in what the rest of the pass makes of a token inserted at its own turn or later. */
  predicate TokensClear(paths: seq<Entry>)
    requires Needles(paths)
  {
    forall k, m | 0 <= k <= m < |paths| :: !Occurs(paths[k].needle, Pass(Text(paths[m].token), paths[m + 1..]))
  }

  /** Nothing but a token can bring a needle back that is absent, or next to be replaced. */
  lemma {:induction false} StaysAbsent(text: string, paths: seq<Entry>, needle: string)
    requires Needles(paths) && needle != "" && NoAngles(needle)
    requires !Occurs(needle, text) || (paths != [] && paths[0].needle == needle)
    requires forall m | 0 <= m < |paths| :: !Occurs(needle, Pass(Text(paths[m].token), paths[m + 1..]))
    ensures !Occurs(needle, Pass(text, paths))
    decreases |paths|, |text|
  {
    hide Occurs, OccursAt, Replace;
    if paths != [] {
      var first, rest, t := paths[0].needle, paths[1..], Text(paths[0].token);
      assert forall m | 0 <= m < |rest| :: rest[m] == paths[m + 1] && rest[m + 1..] == paths[m + 2..];
      match Find(text, first)
      case None =>
        NothingToReplace(text, first, t);
        StaysAbsent(text, rest, needle);
      case Some(i) =>
        ReplaceFirst(text, first, t, i);
        var head, tail := text[..i], text[i + |first|..];
        PassInParts(head, t, Replace(tail, first, t), rest);
        AbsentInParts(text, first, i, needle);
        StaysAbsent(head, rest, needle);
        StaysAbsent(tail, paths, needle);
        assert rest == paths[0 + 1..];
        if Occurs(needle, Pass(text, paths)) {
          NoStraddle(needle, Pass(head, rest), Pass(t, rest), Pass(tail, paths));
        }
    }
  }

  /** Around the first occurrence of a needle: it is absent before it, and what is absent from the whole is absent around it. */
  lemma {:induction false} AbsentInParts(text: string, first: string, i: nat, needle: string)
    requires first != "" && Find(text, first) == Some(i)
    requires needle == first || !Occurs(needle, text)
    ensures !Occurs(needle, text[..i]) && (needle == first || !Occurs(needle, text[i + |first|..]))
  {
    hide Occurs;
    NoneBeforeFirst(text, first, i);
    assert text[0..i] == text[..i] && text[i + |first|..|text|] == text[i + |first|..];
    if Occurs(needle, text[..i]) {
      OccursInSlice(needle, text, 0, i);
    }
    if Occurs(needle, text[i + |first|..]) && needle != first {
      OccursInSlice(needle, text, i + |first|, |text|);
    }
  }

  /** After the pass no needle occurs anywhere: a later replacement never recreates an earlier needle. */
  lemma {:induction false} NothingIsLeft(text: string, paths: seq<Entry>, k: nat)
    requires Needles(paths) && TokensClear(paths) && k < |paths|
    ensures !Occurs(paths[k].needle, Pass(text, paths))
    decreases |paths|
  {
    if k == 0 {
      StaysAbsent(text, paths, paths[0].needle);
    } else {
      RestClears(paths);
      hide TokensClear, Occurs;
      NothingIsLeft(Replace(text, paths[0].needle, Text(paths[0].token)), paths[1..], k - 1);
    }
  }

  lemma RestClears(paths: seq<Entry>)
    requires Needles(paths) && TokensClear(paths) && paths != []
    ensures TokensClear(paths[1..])
  {
    hide Occurs, Pass;
    var rest := paths[1..];
    forall k, m | 0 <= k <= m < |rest| ensures !Occurs(rest[k].needle, Pass(Text(rest[m].token), rest[m + 1..])) {
      assert rest[k] == paths[k + 1] && rest[m] == paths[m + 1] && rest[m + 1..] == paths[m + 2..];
      assert !Occurs(paths[k + 1].needle, Pass(Text(paths[m + 1].token), paths[m + 2..]));
    }
  }

  predicate DistinctNeedles(paths: seq<Entry>) {
    forall i, j | 0 <= i < j < |paths| :: paths[i].needle != paths[j].needle
  }

  /** A path reaches its own turn whole, since only longer ones come before, and becomes its token. */
  lemma {:induction false} NeedleBecomesToken(paths: seq<Entry>, m: nat)
    requires Needles(paths) && LongestFirst(paths) && DistinctNeedles(paths) && m < |paths|
    ensures Pass(paths[m].needle, paths) == Pass(Text(paths[m].token), paths[m + 1..])
    decreases m
  {
    var needle, rest := paths[m].needle, paths[1..];
    if m == 0 {
      assert needle[0..0 + |needle|] == needle;
      assert OccursAt(needle, needle, 0);
      assert Find(needle, needle) == Some(0);
      assert needle[|needle|..] == "" && Find("", needle) == None;
      assert Replace(needle, needle, Text(paths[0].token)) == Text(paths[0].token);
    } else {
      if Occurs(paths[0].needle, needle) {
        LongerFirst(paths, 0, m);
      }
      assert forall i | 0 <= i < |rest| :: rest[i] == paths[i + 1];
      NeedleBecomesToken(rest, m - 1);
      assert rest[m..] == paths[m + 1..];
    }
  }

  /** The pass clears every text of every needle exactly when it clears the tokens it inserts. */
  lemma {:induction false} NothingIsLeftIff(paths: seq<Entry>)
    requires Needles(paths) && LongestFirst(paths) && DistinctNeedles(paths)
    ensures (forall text, k | 0 <= k < |paths| :: !Occurs(paths[k].needle, Pass(text, paths))) <==> TokensClear(paths)
  {
    if TokensClear(paths) {
      forall text, k | 0 <= k < |paths| ensures !Occurs(paths[k].needle, Pass(text, paths)) {
        NothingIsLeft(text, paths, k);
      }
    } else {
      var k, m :| 0 <= k <= m < |paths| && Occurs(paths[k].needle, Pass(Text(paths[m].token), paths[m + 1..]));
      NeedleBecomesToken(paths, m);
      assert Occurs(paths[k].needle, Pass(paths[m].needle, paths));
    }
  }

  /** The path loop of `redact_str`, with its count. */
  method ApplyPaths(paths: seq<Entry>, text: string) returns (replaced: string, n: nat)
    requires Needles(paths)
    ensures replaced == Pass(text, paths) && n == Hits(text, paths)
  {
    replaced, n := text, 0;
    for k := 0 to |paths|
      invariant Pass(text, paths) == Pass(replaced, paths[k..])
      invariant Hits(text, paths) == n + Hits(replaced, paths[k..])
    {
      var hits := Count(replaced, paths[k].needle);
      if hits > 0 {
        n := n + hits;
        replaced := Replace(replaced, paths[k].needle, Text(paths[k].token));
      }
    }
  }

  /** A condition that is quicker to see: no needle is part of a token inserted at its own turn or later. */
  predicate TokensSpare(paths: seq<Entry>) {
    forall k, m | 0 <= k <= m < |paths| :: !Occurs(paths[k].needle, Text(paths[m].token))
  }

  lemma {:induction false} PassSpares(text: string, paths: seq<Entry>, needle: string)
    requires Needles(paths) && needle != "" && NoAngles(needle) && !Occurs(needle, text)
    requires forall m | 0 <= m < |paths| :: !Occurs(needle, Text(paths[m].token))
    ensures !Occurs(needle, Pass(text, paths))
    decreases |paths|
  {
    forall m | 0 <= m < |paths| ensures !Occurs(needle, Pass(Text(paths[m].token), paths[m + 1..])) {
      PassSpares(Text(paths[m].token), paths[m + 1..], needle);
    }
    StaysAbsent(text, paths, needle);
  }

  lemma {:induction false} SparedAreClear(paths: seq<Entry>)
    requires Needles(paths) && TokensSpare(paths)
    ensures TokensClear(paths)
  {
    forall k, m | 0 <= k <= m < |paths|
      ensures !Occurs(paths[k].needle, Pass(Text(paths[m].token), paths[m + 1..]))
    {
      PassSpares(Text(paths[m].token), paths[m + 1..], paths[k].needle);
    }
  }

  predicate HasSeparator(s: string) {
    '/' in s || '\\' in s
  }

  /** Every absolute path below a root qualifies: tokens hold no separator. */
  lemma {:induction false} SeparatorsSuffice(paths: seq<Entry>)
    requires forall k | 0 <= k < |paths| :: HasSeparator(paths[k].needle)
    ensures TokensSpare(paths)
  {
    forall k, m | 0 <= k <= m < |paths| ensures !Occurs(paths[k].needle, Text(paths[m].token)) {
      NotInToken(paths[k].needle, paths[m].token);
    }
  }

  lemma {:induction false} NotInToken(needle: string, token: Token)
    requires HasSeparator(needle)
    ensures !Occurs(needle, Text(token))
  {
    var t := Text(token);
    assert '/' !in t && '\\' !in t;
    var k :| 0 <= k < |needle| && (needle[k] == '/' || needle[k] == '\\');
    forall i | 0 <= i <= |t| ensures !OccursAt(needle, t, i) {
      if i + |needle| <= |t| {
        assert t[i..i + |needle|][k] == t[i + k];
      }
    }
  }

  /** Only short needles are part of a token. */
  lemma {:induction false} PartOfToken(needle: string, token: Token)
    requires needle != "" && NoAngles(needle) && Occurs(needle, Text(token))
    ensures ByteLen(needle) <= if token.Ws? then 2 else 4
  {
    var t := Text(token);
    var i :| 0 <= i <= |t| && OccursAt(needle, t, i);
    NotInside(needle, t, i, 0);
    NotInside(needle, t, i, |t| - 1);
    var pre, post := t[..i], t[i + |needle|..];
    assert t == pre + needle + post;
    ByteLenJoin(pre, needle);
    ByteLenJoin(pre + needle, post);
    TokenLength(token);
  }

  lemma TokenLength(token: Token)
    ensures ByteLen(Text(token)) == if token.Ws? then 4 else 6
  {
    match token
    case Ws => assert ByteLen("<WS>") == 4;
    case Home => assert ByteLen("<HOME>") == 6;
  }

  /** So does every table whose home directory is longer than four bytes, whatever the roots are called. */
  lemma {:induction false} LongHomeSuffices(paths: seq<Entry>)
    requires Needles(paths) && LongestFirst(paths)
    requires forall k | 0 <= k < |paths| :: ByteLen(paths[k].needle) >= if paths[k].token.Ws? then 3 else 5
    ensures TokensSpare(paths)
  {
    forall k, m | 0 <= k <= m < |paths| ensures !Occurs(paths[k].needle, Text(paths[m].token)) {
      if Occurs(paths[k].needle, Text(paths[m].token)) {
        PartOfToken(paths[k].needle, paths[m].token);
        assert ByteLen(paths[k].needle) >= ByteLen(paths[m].needle);
      }
    }
  }

  /** Nothing is counted, and nothing changes, exactly when no needle occurs. */
  lemma {:induction false} NoHitsIff(text: string, paths: seq<Entry>)
    requires Needles(paths)
    ensures Hits(text, paths) == 0 <==> forall k | 0 <= k < |paths| :: !Occurs(paths[k].needle, text)
    ensures Hits(text, paths) == 0 ==> Pass(text, paths) == text
    decreases |paths|
  {
    if paths != [] {
      var next := Replace(text, paths[0].needle, Text(paths[0].token));
      NoHitsIff(next, paths[1..]);
      if !Occurs(paths[0].needle, text) {
        assert next == text;
        assert forall k | 0 <= k < |paths| - 1 :: paths[1..][k] == paths[k + 1];
        assert forall k | 0 < k < |paths| :: paths[k] == paths[1..][k - 1];
      }
    }
  }

  // ------------------------------------------------------------ the needles of roots and home

  /** The length in UTF-8. */
  function ByteLen(s: string): (n: nat)
    ensures n >= |s|
  {
    if s == "" then 0
    else
      (if s[0] < '\U{0080}' then 1 else if s[0] < '\U{0800}' then 2 else if s[0] < '\U{10000}' then 3 else 4)
      + ByteLen(s[1..])
  }

  lemma {:induction false} ByteLenJoin(a: string, b: string)
    ensures ByteLen(a + b) == ByteLen(a) + ByteLen(b)
  {
    if a == "" {
      assert a + b == b;
    } else {
      assert (a + b)[1..] == a[1..] + b;
      ByteLenJoin(a[1..], b);
    }
  }

  function TrimEnd(p: string): string {
    if p != "" && (p[|p| - 1] == '/' || p[|p| - 1] == '\\') then TrimEnd(p[..|p| - 1]) else p
  }

  function Swapped(p: string, from: char, to: char): string {
    seq(|p|, i requires 0 <= i < |p| => if p[i] == from then to else p[i])
  }

  /** A path with either kind of slash; paths of fewer than three bytes are not needles. */
  function Forms(p: string): seq<string> {
    var t := TrimEnd(p);
    if ByteLen(t) < 3 then [] else [Swapped(t, '\\', '/'), Swapped(t, '/', '\\')]
  }

  /** The sort: longest first, then alphabetically. */
  predicate Before(a: Entry, b: Entry) {
    ByteLen(a.needle) > ByteLen(b.needle)
    || (ByteLen(a.needle) == ByteLen(b.needle) && LexBefore(a.needle, b.needle))
  }

  predicate Sorted(paths: seq<Entry>) {
    forall i, j | 0 <= i < j < |paths| :: Before(paths[i], paths[j])
  }

  predicate LongestFirst(paths: seq<Entry>) {
    forall i, j | 0 <= i < j < |paths| :: ByteLen(paths[i].needle) >= ByteLen(paths[j].needle)
  }

  lemma BeforeIsAnOrder(a: Entry, b: Entry, c: Entry)
    ensures Before(a, b) || Before(b, a)
    ensures Before(a, b) && Before(b, c) ==> Before(a, c)
  {
    LexTotal(a.needle, b.needle);
    if Before(a, b) && Before(b, c) && ByteLen(a.needle) == ByteLen(c.needle) {
      LexTransitive(a.needle, b.needle, c.needle);
    }
  }

  predicate Listed(paths: seq<Entry>, needle: string) {
    exists k | 0 <= k < |paths| :: paths[k].needle == needle
  }

  /** Each form becomes a needle unless it is one already. */
  function AddForms(paths: seq<Entry>, forms: seq<string>, token: Token): seq<Entry>
    decreases |forms|
  {
    if forms == [] then paths
    else AddForms(if Listed(paths, forms[0]) then paths else paths + [Entry(forms[0], token)], forms[1..], token)
  }

  lemma {:induction false} FormsAdded(paths: seq<Entry>, forms: seq<string>, token: Token)
    ensures forall v :: Listed(AddForms(paths, forms, token), v) <==> Listed(paths, v) || v in forms
    ensures forall e | e in AddForms(paths, forms, token) :: e in paths || (e.token == token && !Listed(paths, e.needle))
    ensures forall e | e in paths :: e in AddForms(paths, forms, token)
    ensures DistinctNeedles(paths) ==> DistinctNeedles(AddForms(paths, forms, token))
    decreases |forms|
  {
    if forms != [] {
      var e := Entry(forms[0], token);
      var next := if Listed(paths, forms[0]) then paths else paths + [e];
      Appended(paths, e);
      FormsAdded(next, forms[1..], token);
      assert forall v :: v in forms <==> v == forms[0] || v in forms[1..];
    }
  }

  lemma Appended(paths: seq<Entry>, e: Entry)
    ensures forall v :: Listed(paths + [e], v) <==> Listed(paths, v) || v == e.needle
  {
    forall v ensures Listed(paths + [e], v) <==> Listed(paths, v) || v == e.needle {
      if Listed(paths, v) {
        var k :| 0 <= k < |paths| && paths[k].needle == v;
        assert (paths + [e])[k].needle == v;
      }
      assert (paths + [e])[|paths|] == e;
    }
  }

  lemma SameEntries(a: seq<Entry>, b: seq<Entry>)
    requires multiset(a) == multiset(b)
    ensures forall e :: e in a <==> e in b
    ensures forall v :: Listed(a, v) <==> Listed(b, v)
  {
    forall e ensures e in a <==> e in b {
      assert e in a <==> e in multiset(a);
      assert e in b <==> e in multiset(b);
    }
    forall v ensures Listed(a, v) <==> Listed(b, v) {
      ListedIn(a, v);
      ListedIn(b, v);
    }
  }

  lemma ListedIn(paths: seq<Entry>, v: string)
    ensures Listed(paths, v) <==> exists e | e in paths :: e.needle == v
  {}

  /** The needle is a form of a root, or of the home directory. */
  predicate IsNeedle(roots: seq<string>, home: Option<string>, needle: string) {
    IsRootForm(roots, needle) || (home.Some? && needle in Forms(home.value))
  }

  predicate IsRootForm(roots: seq<string>, needle: string) {
    exists i | 0 <= i < |roots| :: needle in Forms(roots[i])
  }

  /** Places an entry after the last one that goes before it. */
  method InsertSorted(sorted: seq<Entry>, e: Entry) returns (r: seq<Entry>)
    requires Sorted(sorted)
    ensures Sorted(r) && multiset(r) == multiset(sorted) + multiset{e}
    ensures DistinctNeedles(sorted) && !Listed(sorted, e.needle) ==> DistinctNeedles(r)
  {
    var i := |sorted|;
    while i > 0 && !Before(sorted[i - 1], e)
      invariant 0 <= i <= |sorted|
      invariant forall k | i <= k < |sorted| :: Before(e, sorted[k])
    {
      BeforeIsAnOrder(sorted[i - 1], e, e);
      i := i - 1;
    }
    r := sorted[..i] + [e] + sorted[i..];
    StaysSorted(sorted, i, e);
    SameMembers(sorted, i, e);
  }

  lemma SameMembers(sorted: seq<Entry>, i: nat, e: Entry)
    requires i <= |sorted|
    ensures multiset(sorted[..i] + [e] + sorted[i..]) == multiset(sorted) + multiset{e}
  {
    assert sorted == sorted[..i] + sorted[i..];
  }

  lemma StaysSorted(sorted: seq<Entry>, i: nat, e: Entry)
    requires Sorted(sorted) && i <= |sorted|
    requires i > 0 ==> Before(sorted[i - 1], e)
    requires forall k | i <= k < |sorted| :: Before(e, sorted[k])
    ensures Sorted(sorted[..i] + [e] + sorted[i..])
    ensures DistinctNeedles(sorted) && !Listed(sorted, e.needle) ==> DistinctNeedles(sorted[..i] + [e] + sorted[i..])
  {
    var r := sorted[..i] + [e] + sorted[i..];
    forall a, b | 0 <= a < b < |r|
      ensures Before(r[a], r[b])
      ensures DistinctNeedles(sorted) && !Listed(sorted, e.needle) ==> r[a].needle != r[b].needle
    {
      var x := if a < i then sorted[a] else if a == i then e else sorted[a - 1];
      var y := if b < i then sorted[b] else if b == i then e else sorted[b - 1];
      assert r[a] == x && r[b] == y;
      if a < i - 1 && b == i {
        BeforeIsAnOrder(sorted[a], sorted[i - 1], e);
      }
    }
  }

  method SortPaths(paths: seq<Entry>) returns (sorted: seq<Entry>)
    requires DistinctNeedles(paths)
    ensures Sorted(sorted) && DistinctNeedles(sorted) && multiset(sorted) == multiset(paths)
  {
    sorted := [];
    for i := 0 to |paths|
      invariant Sorted(sorted) && DistinctNeedles(sorted) && multiset(sorted) == multiset(paths[..i])
    {
      assert paths[..i + 1] == paths[..i] + [paths[i]];
      SameEntries(sorted, paths[..i]);
      sorted := InsertSorted(sorted, paths[i]);
    }
    assert paths[..|paths|] == paths;
  }

  lemma RootAdded(roots: seq<string>, i: nat)
    requires i < |roots|
    ensures forall v :: IsRootForm(roots[..i + 1], v) <==> IsRootForm(roots[..i], v) || v in Forms(roots[i])
  {
    forall v ensures IsRootForm(roots[..i + 1], v) <==> IsRootForm(roots[..i], v) || v in Forms(roots[i]) {
      if IsRootForm(roots[..i], v) {
        var k :| 0 <= k < |roots[..i]| && v in Forms(roots[..i][k]);
        assert roots[..i + 1][k] == roots[..i][k];
      }
      if IsRootForm(roots[..i + 1], v) {
        var k :| 0 <= k < |roots[..i + 1]| && v in Forms(roots[..i + 1][k]);
        assert k < i ==> roots[..i][k] == roots[k];
      }
      assert roots[..i + 1][i] == roots[i];
    }
  }

  /** The needles are the forms of all roots and of home, each once; a form of a root gets the root's token. */
  ghost predicate PathTable(roots: seq<string>, home: Option<string>, paths: seq<Entry>) {
    && Sorted(paths) && DistinctNeedles(paths)
    && (forall needle :: Listed(paths, needle) <==> IsNeedle(roots, home, needle))
    && (forall e | e in paths :: e.token == Ws <==> IsRootForm(roots, e.needle))
  }

  /** `with_paths`. */
  method WithPaths(roots: seq<string>, home: Option<string>) returns (paths: seq<Entry>)
    ensures PathTable(roots, home, paths)
  {
    hide Sorted, DistinctNeedles, Forms, AddForms, IsRootForm, Listed;
    NoRoots(roots);
    var added: seq<Entry> := [];
    for i := 0 to |roots|
      invariant forall v :: Listed(added, v) <==> IsRootForm(roots[..i], v)
      invariant DistinctNeedles(added) && forall e | e in added :: e.token == Ws
    {
      FormsAdded(added, Forms(roots[i]), Ws);
      RootAdded(roots, i);
      added := AddForms(added, Forms(roots[i]), Ws);
    }
    assert roots[..|roots|] == roots;
    ListedAll(added);
    if home.Some? {
      FormsAdded(added, Forms(home.value), Home);
      added := AddForms(added, Forms(home.value), Home);
    }
    paths := SortPaths(added);
    SameEntries(paths, added);
  }

  lemma ListedAll(paths: seq<Entry>)
    ensures forall e | e in paths :: Listed(paths, e.needle)
  {}

  lemma NoRoots(roots: seq<string>)
    ensures DistinctNeedles([]) && forall v :: !Listed([], v) && !IsRootForm(roots[..0], v)
  {}

  // ------------------------------------------------------------ the guarantee, from the caller's side

  lemma {:induction false} TrimKeeps(p: string)
    ensures TrimEnd(p) <= p
  {
    if TrimEnd(p) != p {
      TrimKeeps(p[..|p| - 1]);
    }
  }

  /** Needles are as clean as the paths they come from. */
  lemma {:induction false} FormsAreClean(p: string, form: string)
    requires form in Forms(p)
    ensures form != ""
    ensures NoAngles(p) ==> NoAngles(form)
    ensures HasSeparator(TrimEnd(p)) ==> HasSeparator(form)
    ensures ByteLen(form) == ByteLen(TrimEnd(p)) >= 3
  {
    var t := TrimEnd(p);
    SwappedLength(t, '\\', '/');
    SwappedLength(t, '/', '\\');
    TrimKeeps(p);
    assert t != "";
    forall i | 0 <= i < |t|
      ensures form[i] == t[i] || form[i] == '/' || form[i] == '\\'
      ensures t[i] == '/' || t[i] == '\\' ==> form[i] == '/' || form[i] == '\\'
    {}
    if NoAngles(p) {
      forall i | 0 <= i < |form| ensures form[i] != '<' && form[i] != '>' {
        assert t[i] == p[i];
      }
    }
    if HasSeparator(t) {
      var i :| 0 <= i < |t| && (t[i] == '/' || t[i] == '\\');
      assert form[i] in form;
    }
  }

  lemma {:induction false} SwappedLength(p: string, from: char, to: char)
    requires from < '\U{0080}' && to < '\U{0080}'
    ensures ByteLen(Swapped(p, from, to)) == ByteLen(p)
  {
    if p != "" {
      assert Swapped(p, from, to)[1..] == Swapped(p[1..], from, to);
      SwappedLength(p[1..], from, to);
    }
  }

  predicate AngleFree(roots: seq<string>, home: Option<string>) {
    (forall i | 0 <= i < |roots| :: NoAngles(roots[i])) && (home.Some? ==> NoAngles(home.value))
  }

  /** No home directory, or a long one, or no bare name among the paths. */
  predicate Safe(roots: seq<string>, home: Option<string>) {
    || home.None?
    || ByteLen(TrimEnd(home.value)) > 4
    || (HasSeparator(TrimEnd(home.value)) && forall i | 0 <= i < |roots| :: HasSeparator(TrimEnd(roots[i])))
  }

  /** Where a needle of the table comes from. */
  lemma {:induction false} NeedleOfTable(roots: seq<string>, home: Option<string>, paths: seq<Entry>, k: nat)
    requires PathTable(roots, home, paths) && AngleFree(roots, home) && k < |paths|
    ensures paths[k].needle != "" && NoAngles(paths[k].needle) && ByteLen(paths[k].needle) >= 3
    ensures paths[k].token.Home? ==> home.Some? && ByteLen(paths[k].needle) == ByteLen(TrimEnd(home.value))
    ensures home.Some? && HasSeparator(TrimEnd(home.value)) && (forall i | 0 <= i < |roots| :: HasSeparator(TrimEnd(roots[i])))
            ==> HasSeparator(paths[k].needle)
  {
    hide NoAngles, HasSeparator, Forms;
    var needle := paths[k].needle;
    assert paths[k] in paths && Listed(paths, needle);
    if IsRootForm(roots, needle) {
      var i :| 0 <= i < |roots| && needle in Forms(roots[i]);
      FormsAreClean(roots[i], needle);
    } else {
      FormsAreClean(home.value, needle);
    }
  }

  lemma {:induction false} TableIsClean(roots: seq<string>, home: Option<string>, paths: seq<Entry>)
    requires PathTable(roots, home, paths) && AngleFree(roots, home)
    ensures Needles(paths) && LongestFirst(paths)
    ensures Safe(roots, home) ==> TokensClear(paths)
  {
    hide AngleFree, HasSeparator, TokensSpare, TokensClear, IsNeedle, IsRootForm;
    forall k | 0 <= k < |paths|
      ensures paths[k].needle != "" && NoAngles(paths[k].needle)
    {
      NeedleOfTable(roots, home, paths, k);
    }
    if home.None? || ByteLen(TrimEnd(home.value)) > 4 {
      forall k | 0 <= k < |paths| ensures ByteLen(paths[k].needle) >= if paths[k].token.Ws? then 3 else 5 {
        NeedleOfTable(roots, home, paths, k);
      }
      LongHomeSuffices(paths);
      SparedAreClear(paths);
    } else if Safe(roots, home) {
      forall k | 0 <= k < |paths| ensures HasSeparator(paths[k].needle) {
        NeedleOfTable(roots, home, paths, k);
      }
      SeparatorsSuffice(paths);
      SparedAreClear(paths);
    }
  }

  /** In paths without angle brackets: no root and no home directory is left in any text, exactly when the table clears its tokens. */
  lemma {:induction false} RootsAreGoneIff(roots: seq<string>, home: Option<string>, paths: seq<Entry>)
    requires PathTable(roots, home, paths) && AngleFree(roots, home)
    ensures Needles(paths)
    ensures (forall text, needle | IsNeedle(roots, home, needle) :: !Occurs(needle, Pass(text, paths))) <==> TokensClear(paths)
  {
    TableIsClean(roots, home, paths);
    hide Occurs, TokensClear, IsNeedle, Needles, PathTable, DistinctNeedles;
    if TokensClear(paths) {
      forall text, needle | IsNeedle(roots, home, needle) ensures !Occurs(needle, Pass(text, paths)) {
        var k := PlaceOf(roots, home, paths, needle);
        NothingIsLeft(text, paths, k);
      }
    } else {
      var text, k := TextThatFails(roots, home, paths);
      assert Occurs(paths[k].needle, Pass(text, paths));
    }
  }

  lemma PlaceOf(roots: seq<string>, home: Option<string>, paths: seq<Entry>, needle: string) returns (k: nat)
    requires PathTable(roots, home, paths) && IsNeedle(roots, home, needle)
    ensures k < |paths| && paths[k].needle == needle
  {
    assert Listed(paths, needle);
    k :| k < |paths| && paths[k].needle == needle;
  }

  lemma TextThatFails(roots: seq<string>, home: Option<string>, paths: seq<Entry>) returns (text: string, k: nat)
    requires PathTable(roots, home, paths) && Needles(paths) && LongestFirst(paths) && !TokensClear(paths)
    ensures k < |paths| && IsNeedle(roots, home, paths[k].needle) && Occurs(paths[k].needle, Pass(text, paths))
  {
    NothingIsLeftIff(paths);
    hide Occurs, TokensClear, Needles;
    text, k :| k < |paths| && Occurs(paths[k].needle, Pass(text, paths));
    assert Listed(paths, paths[k].needle);
  }

  // ------------------------------------------------------------ tables that leave something

  lemma FormsOfHome()
    ensures Forms("HOME") == ["HOME", "HOME"]
    ensures ByteLen("HOME") == 4
  {
    hide LexBefore, Occurs, OccursAt;
    var p := "HOME";
    assert TrimEnd(p) == p && ByteLen(p) == 4;
    assert Swapped(p, '\\', '/') == p && Swapped(p, '/', '\\') == p;
  }

  lemma FormsOfShort()
    ensures Forms("/hm") == ["/hm", "\\hm"]
    ensures ByteLen("/hm") == 3 && ByteLen("\\hm") == 3
  {
    hide LexBefore, Occurs, OccursAt;
    var p := "/hm";
    assert TrimEnd(p) == p && ByteLen(p) == 3 && ByteLen("\\hm") == 3;
    assert Swapped(p, '\\', '/') == p && Swapped(p, '/', '\\') == "\\hm";
  }

  lemma HomeInToken()
    ensures NoAngles("HOME") && Occurs("HOME", Text(Home))
  {
    hide LexBefore;
    assert "<HOME>"[1..5] == "HOME";
    assert OccursAt("HOME", "<HOME>", 1);
  }

  /** A home directory called `HOME` is not cleared: its own token spells it. */
  lemma HomeIsLeft(text: string)
    requires Occurs("HOME", text)
    ensures var table := [Entry("HOME", Home)];
            PathTable([], Some("HOME"), table) && Needles(table) && Occurs("HOME", Pass(text, table))
  {
    hide Occurs, NoAngles, Replace, Forms, Sorted, Text;
    var table := [Entry("HOME", Home)];
    OnlyHome(table);
    HomeInToken();
    ReplaceClearsIff(text, "HOME", Home);
    assert table[1..] == [];
  }

  lemma OnlyHome(table: seq<Entry>)
    requires table == [Entry("HOME", Home)]
    ensures PathTable([], Some("HOME"), table)
  {
    FormsOfHome();
    hide Forms, ByteLen, LexBefore, TrimEnd, Swapped;
    assert table[0].needle == "HOME" && Listed(table, "HOME");
  }

  /** A workspace root called `HOME` is cleared by its own token, but a short home directory brings it back. */
  lemma RootComesBack()
    ensures var table := [Entry("HOME", Ws), Entry("/hm", Home), Entry("\\hm", Home)];
            PathTable(["HOME"], Some("/hm"), table) && Needles(table) && Occurs("HOME", Pass("/hm", table))
  {
    hide Occurs, PathTable, LongestFirst, Text, NoAngles, Replace;
    var table := [Entry("HOME", Ws), Entry("/hm", Home), Entry("\\hm", Home)];
    TableOfRootAndHome(table);
    LastInToken(table[2]);
    HomeInToken();
    NeedleBecomesToken(table, 1);
    assert table[2..] == [table[2]] && [table[2]][1..] == [];
    assert Pass(Text(Home), [table[2]]) == Text(Home);
  }

  lemma LastInToken(e: Entry)
    requires e == Entry("\\hm", Home)
    ensures Replace(Text(Home), e.needle, Text(Home)) == Text(Home)
  {
    assert e.needle[0] == '\\';
    hide Occurs, Replace, Text;
    NotInToken(e.needle, Home);
    NothingToReplace(Text(Home), e.needle, Text(Home));
  }

  lemma TableOfRootAndHome(table: seq<Entry>)
    requires table == [Entry("HOME", Ws), Entry("/hm", Home), Entry("\\hm", Home)]
    ensures PathTable(["HOME"], Some("/hm"), table) && Needles(table) && LongestFirst(table) && DistinctNeedles(table)
  {
    RootAndHomeSorted(table);
    FormsOfHome();
    FormsOfShort();
    hide Forms, Occurs, OccursAt, ByteLen, LexBefore, Before, Sorted, LongestFirst, DistinctNeedles, TrimEnd, Swapped;
    assert ["HOME"][0] == "HOME";
    forall v ensures IsRootForm(["HOME"], v) <==> v == "HOME" {
      assert IsRootForm(["HOME"], v) <==> v in Forms(["HOME"][0]);
    }
    assert table[0].needle == "HOME" && table[1].needle == "/hm" && table[2].needle == "\\hm";
  }

  lemma RootAndHomeSorted(table: seq<Entry>)
    requires table == [Entry("HOME", Ws), Entry("/hm", Home), Entry("\\hm", Home)]
    ensures Sorted(table) && LongestFirst(table) && DistinctNeedles(table)
  {
    FormsOfHome();
    FormsOfShort();
    assert LexBefore("/hm", "\\hm");
    hide ByteLen, LexBefore;
    assert Before(table[0], table[1]) && Before(table[0], table[2]) && Before(table[1], table[2]);
  }

  /** Nor is a path with angle brackets safe: a later token can complete it. */
  lemma AnglesLetItBack()
    ensures var paths := [Entry("/a<WS>b", Ws), Entry("/cd", Ws)];
            LongestFirst(paths) && Occurs(paths[0].needle, Replace(Replace("/a/cdb", "/a<WS>b", "<WS>"), "/cd", "<WS>"))
  {
    AngleInput("/a/cdb", "/a<WS>b", "/cd");
  }

  lemma AngleLengths()
    ensures ByteLen("/a<WS>b") == 7 && ByteLen("/cd") == 3
  {}

  lemma AngleInput(text: string, first: string, second: string)
    requires text == "/a/cdb" && first == "/a<WS>b" && second == "/cd"
    ensures LongestFirst([Entry(first, Ws), Entry(second, Ws)])
    ensures Occurs(first, Replace(Replace(text, first, "<WS>"), second, "<WS>"))
  {
    AngleLengths();
    AngleFinds(text, first, second);
    hide ByteLen, Find, Occurs, OccursAt, Replace;
    NothingToReplace(text, first, "<WS>");
    ReplaceFirst(text, second, "<WS>", 2);
    NothingToReplace("b", second, "<WS>");
    assert text[2 + |second|..] == "b";
    assert text[..2] + "<WS>" + "b" == first;
  }

  lemma AngleFinds(text: string, first: string, second: string)
    requires text == "/a/cdb" && first == "/a<WS>b" && second == "/cd"
    ensures Find(text, first) == None && Find(text, second) == Some(2) && Find("b", second) == None && Occurs(first, first)
  {
    hide ByteLen;
    assert OccursAt(second, text, 2);
    assert text[0..3][1] == 'a' && text[1..4][0] == 'a';
    assert Find(text, second) == Some(2);
    assert OccursAt(first, first, 0);
  }

  /** Redacting paths leaves no root and no home directory, with either slash, wherever the table clears its tokens. */
  method RedactPaths(roots: seq<string>, home: Option<string>, text: string) returns (out: string, paths: seq<Entry>)
    requires AngleFree(roots, home)
    ensures PathTable(roots, home, paths) && Needles(paths) && out == Pass(text, paths)
    ensures Safe(roots, home) ==> TokensClear(paths)
    ensures TokensClear(paths) ==> forall needle | IsNeedle(roots, home, needle) :: !Occurs(needle, out)
  {
    hide Sorted, DistinctNeedles, Needles, Pass, AngleFree, TokensClear, IsNeedle, Occurs, Safe, IsRootForm;
    paths := WithPaths(roots, home);
    TableIsClean(roots, home, paths);
    RootsAreGoneIff(roots, home, paths);
    var hits;
    out, hits := ApplyPaths(paths, text);
  }

  /** A path inside a longer one is replaced after it, so the longer one is seen whole. */
  lemma {:induction false} LongerFirst(paths: seq<Entry>, i: nat, j: nat)
    requires LongestFirst(paths) && i < |paths| && j < |paths|
    requires Occurs(paths[i].needle, paths[j].needle) && paths[i].needle != paths[j].needle
    ensures j < i
  {
    var a, b := paths[i].needle, paths[j].needle;
    var k :| 0 <= k <= |b| && OccursAt(a, b, k);
    var pre, post := b[..k], b[k + |a|..];
    assert b == pre + a + post;
    ByteLenJoin(pre, a);
    ByteLenJoin(pre + a, post);
    assert pre == "" && post == "" ==> a == b;
  }
}
