/**
 The redaction pass and its state: the secrets numbered so far, and the counts.
 A rule's regular expression is the function `find`, which lists its matches in
 a text from left to right.
 */
module Redactor {
  import opened Common
  import opened Order
  import opened Numbers
  import opened Json
  import JsonText
  import RedactPaths

  /** A match, and inside it the part that is secret. */
  datatype Span = Span(start: nat, secretStart: nat, secretEnd: nat, end: nat)

  datatype Rule = Rule(name: string, find: string -> seq<Span>, replace: Option<string>)

  type Secret = (nat, string)

  datatype State = State(seen: map<Secret, nat>, counts: seq<nat>, pathMatches: nat)

  predicate SpanOk(s: Span, from: nat, text: string) {
    from <= s.start <= s.secretStart <= s.secretEnd <= s.end <= |text|
  }

  /** Matches are inside the text and do not overlap. */
  predicate SpansOk(spans: seq<Span>, from: nat, text: string)
    decreases |spans|
  {
    spans == [] || (SpanOk(spans[0], from, text) && SpansOk(spans[1..], spans[0].end, text))
  }

  ghost predicate RulesOk(rules: seq<Rule>) {
    forall i, text | 0 <= i < |rules| :: SpansOk(rules[i].find(text), 0, text)
  }

  // ------------------------------------------------------------ numbering

  function Give(seen: map<Secret, nat>, key: Secret): map<Secret, nat> {
    if key in seen then seen else seen[key := |seen| + 1]
  }

  function Numbered(name: string, n: nat): string {
    "<REDACTED:" + name + ":" + Digits(n) + ">"
  }

  function NumberOf(seen: map<Secret, nat>, key: Secret): nat {
    if key in seen then seen[key] else 0
  }

  /** What stands for a secret once it has its number. */
  function TokenText(rule: Rule, index: nat, secret: string, seen: map<Secret, nat>): string {
    match rule.replace
    case Some(literal) => literal
    case None => Numbered(rule.name, NumberOf(seen, (index, secret)))
  }

  /** The numbers given out are 1 to k, one for each secret. */
  ghost predicate SeenOk(seen: map<Secret, nat>) {
    && (forall key | key in seen :: 1 <= seen[key] <= |seen|)
    && (forall a, b | a in seen && b in seen && seen[a] == seen[b] :: a == b)
    && (forall n | 1 <= n <= |seen| :: HasNumber(seen, n))
  }

  ghost predicate HasNumber(seen: map<Secret, nat>, n: int) {
    exists key | key in seen :: seen[key] == n
  }

  ghost predicate Extends(before: map<Secret, nat>, after: map<Secret, nat>) {
    forall key | key in before :: key in after && after[key] == before[key]
  }

  lemma {:induction false} GiveKeeps(seen: map<Secret, nat>, key: Secret)
    requires SeenOk(seen)
    ensures SeenOk(Give(seen, key)) && Extends(seen, Give(seen, key)) && key in Give(seen, key)
  {
    if key !in seen {
      var after := Give(seen, key);
      OneMore(seen, key);
      forall n | 1 <= n <= |after| ensures HasNumber(after, n) {
        if n == |after| {
          assert after[key] == n;
        } else {
          assert HasNumber(seen, n);
          var k :| k in seen && seen[k] == n;
          assert after[k] == n;
        }
      }
    }
  }

  lemma OneMore(seen: map<Secret, nat>, key: Secret)
    requires key !in seen
    ensures |seen[key := |seen| + 1]| == |seen| + 1
  {
    assert seen[key := |seen| + 1].Keys == seen.Keys + {key};
    assert |seen.Keys| == |seen| && |seen[key := |seen| + 1].Keys| == |seen[key := |seen| + 1]|;
  }

  predicate NameOk(name: string) {
    name != "" && ':' !in name && '<' !in name && '>' !in name
  }

  lemma {:induction false} NumberedIsInjective(a: string, m: nat, b: string, n: nat)
    requires NameOk(a) && NameOk(b)
    requires Numbered(a, m) == Numbered(b, n)
    ensures a == b && m == n
  {
    var s, t := Numbered(a, m), Numbered(b, n);
    Parts(a, m);
    Parts(b, n);
    assert a == b;
    assert Digits(m) == s[|a| + 11..|s| - 1] && Digits(n) == t[|a| + 11..|t| - 1];
    DigitsAreInjective(m, n);
  }

  lemma {:induction false} Parts(a: string, m: nat)
    ensures var s := Numbered(a, m);
            && |s| == |a| + |Digits(m)| + 12
            && s[10..10 + |a|] == a && s[10 + |a|] == ':' && s[11 + |a|..|s| - 1] == Digits(m)
            && forall i | 0 <= i < |a| :: s[10 + i] == a[i]
  {}

  /** Two numbered tokens are the same text exactly when they stand for the same secret of the same rule. */
  lemma {:induction false} TokensAreEqualIff(
      seen: map<Secret, nat>, rules: seq<Rule>, i: nat, a: string, j: nat, b: string)
    requires SeenOk(seen) && i < |rules| && j < |rules|
    requires rules[i].replace.None? && rules[j].replace.None? && NameOk(rules[i].name) && NameOk(rules[j].name)
    requires (i, a) in seen && (j, b) in seen
    ensures TokenText(rules[i], i, a, seen) == TokenText(rules[j], j, b, seen) <==> (i, a) == (j, b)
  {
    if TokenText(rules[i], i, a, seen) == TokenText(rules[j], j, b, seen) {
      NumberedIsInjective(rules[i].name, seen[(i, a)], rules[j].name, seen[(j, b)]);
    }
  }

  // ------------------------------------------------------------ one rule over one text

  function Touch(rule: Rule, index: nat, secret: string, seen: map<Secret, nat>): map<Secret, nat> {
    if rule.replace.Some? then seen else Give(seen, (index, secret))
  }

  /** A text cut at the matches of a rule: what is kept, and the secrets. */
  datatype Piece = Kept(text: string) | Hidden(secret: string)

  function Pieces(text: string, spans: seq<Span>, from: nat): seq<Piece>
    requires from <= |text| && SpansOk(spans, from, text)
    decreases |spans|
  {
    if spans == [] then [Kept(text[from..])]
    else
      var s := spans[0];
      [Kept(text[from..s.secretStart]), Hidden(text[s.secretStart..s.secretEnd]), Kept(text[s.secretEnd..s.end])]
      + Pieces(text, spans[1..], s.end)
  }

  /** The numbering once every secret has its number, in order. */
  function NumberAll(rule: Rule, index: nat, pieces: seq<Piece>, seen: map<Secret, nat>): map<Secret, nat>
    decreases |pieces|
  {
    if pieces == [] then seen
    else NumberAll(rule, index, pieces[1..], if pieces[0].Hidden? then Touch(rule, index, pieces[0].secret, seen) else seen)
  }

  function MaskedPiece(rule: Rule, index: nat, piece: Piece, seen: map<Secret, nat>): string {
    match piece
    case Kept(text) => text
    case Hidden(secret) => TokenText(rule, index, secret, seen)
  }

  /** The pieces with each secret replaced by its token. */
  function Masked(rule: Rule, index: nat, pieces: seq<Piece>, seen: map<Secret, nat>): string {
    if pieces == [] then ""
    else
      MaskedPiece(rule, index, pieces[0], seen) + Masked(rule, index, pieces[1..], seen)
  }

  /** The pieces with each secret as it was. */
  function Unmasked(pieces: seq<Piece>): string {
    if pieces == [] then ""
    else (if pieces[0].Kept? then pieces[0].text else pieces[0].secret) + Unmasked(pieces[1..])
  }

  /** Nothing is lost between the pieces: with the secrets put back they are the text. */
  lemma {:induction false} PiecesAreTheText(text: string, spans: seq<Span>, from: nat)
    requires from <= |text| && SpansOk(spans, from, text)
    ensures Unmasked(Pieces(text, spans, from)) == text[from..]
    decreases |spans|
  {
    if spans == [] {
      UnmaskedOne(text[from..]);
    } else {
      var s := spans[0];
      var rest := Pieces(text, spans[1..], s.end);
      PiecesAreTheText(text, spans[1..], s.end);
      UnmaskedThree(text[from..s.secretStart], text[s.secretStart..s.secretEnd], text[s.secretEnd..s.end], rest);
      assert text[from..] ==
        text[from..s.secretStart] + (text[s.secretStart..s.secretEnd] + (text[s.secretEnd..s.end] + text[s.end..]));
    }
  }

  lemma UnmaskedOne(a: string)
    ensures Unmasked([Kept(a)]) == a
  {
    assert [Kept(a)][1..] == [];
  }

  lemma UnmaskedCons(piece: Piece, rest: seq<Piece>)
    ensures Unmasked([piece] + rest) == (if piece.Kept? then piece.text else piece.secret) + Unmasked(rest)
  {
    assert ([piece] + rest)[1..] == rest;
  }

  lemma UnmaskedThree(a: string, b: string, c: string, rest: seq<Piece>)
    ensures Unmasked([Kept(a), Hidden(b), Kept(c)] + rest) == a + (b + (c + Unmasked(rest)))
  {
    hide Unmasked;
    var two := [Kept(c)] + rest;
    var three := [Hidden(b)] + two;
    assert [Kept(a), Hidden(b), Kept(c)] + rest == [Kept(a)] + three;
    UnmaskedCons(Kept(a), three);
    UnmaskedCons(Hidden(b), two);
    UnmaskedCons(Kept(c), rest);
  }

  /** One piece at a time. */
  lemma PieceCons(rule: Rule, index: nat, piece: Piece, rest: seq<Piece>, seen: map<Secret, nat>)
    ensures Masked(rule, index, [piece] + rest, seen) == MaskedPiece(rule, index, piece, seen) + Masked(rule, index, rest, seen)
    ensures NumberAll(rule, index, [piece] + rest, seen) ==
            NumberAll(rule, index, rest, if piece.Hidden? then Touch(rule, index, piece.secret, seen) else seen)
  {
    assert ([piece] + rest)[1..] == rest;
  }

  /** One match more: its three pieces in front of the rest. */
  lemma MatchPieces(
      rule: Rule, index: nat, a: string, b: string, c: string, rest: seq<Piece>, seen: map<Secret, nat>, out: string)
    ensures var all := [Kept(a), Hidden(b), Kept(c)] + rest;
            && NumberAll(rule, index, all, seen) == NumberAll(rule, index, rest, Touch(rule, index, b, seen))
            && out + Masked(rule, index, all, seen)
               == out + (a + TokenText(rule, index, b, seen) + c) + Masked(rule, index, rest, seen)
  {
    hide TokenText, Touch, Masked, NumberAll;
    var next := Touch(rule, index, b, seen);
    var two := [Kept(c)] + rest;
    var three := [Hidden(b)] + two;
    assert [Kept(a), Hidden(b), Kept(c)] + rest == [Kept(a)] + three;
    PieceCons(rule, index, Kept(a), three, seen);
    PieceCons(rule, index, Hidden(b), two, seen);
    PieceCons(rule, index, Kept(c), rest, seen);
    PieceCons(rule, index, Kept(c), rest, next);
    Regroup(out, a, TokenText(rule, index, b, seen), c, Masked(rule, index, rest, seen));
  }

  lemma Regroup(out: string, a: string, b: string, c: string, d: string)
    ensures out + (a + (b + (c + d))) == out + (a + b + c) + d
  {}

  lemma LastPiece(rule: Rule, index: nat, a: string, seen: map<Secret, nat>)
    ensures NumberAll(rule, index, [Kept(a)], seen) == seen && Masked(rule, index, [Kept(a)], seen) == a
  {
    assert [Kept(a)][1..] == [];
  }

  /** `replace_all`: every secret replaced by the token it has once the text is done. */
  function ReplaceAll(rule: Rule, index: nat, text: string, spans: seq<Span>, seen: map<Secret, nat>)
    : (string, map<Secret, nat>)
    requires SpansOk(spans, 0, text)
  {
    var pieces := Pieces(text, spans, 0);
    var after := NumberAll(rule, index, pieces, seen);
    (Masked(rule, index, pieces, after), after)
  }

  lemma {:induction false} NumberAllKeeps(rule: Rule, index: nat, pieces: seq<Piece>, seen: map<Secret, nat>)
    requires SeenOk(seen)
    ensures SeenOk(NumberAll(rule, index, pieces, seen)) && Extends(seen, NumberAll(rule, index, pieces, seen))
    decreases |pieces|
  {
    hide SeenOk;
    if pieces != [] {
      if pieces[0].Hidden? && rule.replace.None? {
        GiveKeeps(seen, (index, pieces[0].secret));
      }
      NumberAllKeeps(
        rule, index, pieces[1..], if pieces[0].Hidden? then Touch(rule, index, pieces[0].secret, seen) else seen);
    }
  }

  /** A token once given is given again for as long as the run lasts. */
  lemma TokensAreStable(rule: Rule, index: nat, secret: string, before: map<Secret, nat>, after: map<Secret, nat>)
    requires Extends(before, after) && ((index, secret) in before || rule.replace.Some?)
    ensures TokenText(rule, index, secret, after) == TokenText(rule, index, secret, before)
  {}

  // ------------------------------------------------------------ all rules, then the paths

  type Rules = rules: seq<Rule> | RulesOk(rules) witness []

  type Paths = paths: seq<RedactPaths.Entry> | RedactPaths.Needles(paths) witness []

  function CountMore(counts: seq<nat>, i: nat, n: nat): seq<nat> {
    seq(|counts|, k requires 0 <= k < |counts| => if k == i then counts[k] + n else counts[k])
  }

  function Current(text: string, out: Option<string>): string {
    if out.Some? then out.value else text
  }

  function RunRule(rules: Rules, i: nat, text: string, out: Option<string>, state: State): (State, Option<string>)
    requires i < |rules|
  {
    var current := Current(text, out);
    var spans := rules[i].find(current);
    assert SpansOk(spans, 0, current);
    if spans == [] then (state, out)
    else
      var (replaced, seen) := ReplaceAll(rules[i], i, current, spans, state.seen);
      (state.(seen := seen, counts := CountMore(state.counts, i, |spans|)), Some(replaced))
  }

  function RunRules(rules: Rules, i: nat, text: string, out: Option<string>, state: State): (State, Option<string>)
    requires i <= |rules|
    decreases |rules| - i
  {
    if i == |rules| then (state, out)
    else
      var (next, r) := RunRule(rules, i, text, out, state);
      RunRules(rules, i + 1, text, r, next)
  }

  function RunPaths(paths: Paths, text: string, out: Option<string>, state: State): (State, Option<string>) {
    var hits := RedactPaths.Hits(Current(text, out), paths);
    if hits == 0 then (state, out)
    else (state.(pathMatches := state.pathMatches + hits), Some(RedactPaths.Pass(Current(text, out), paths)))
  }

  /** `redact_str` as a function of the state. */
  function Redact(rules: Rules, paths: Paths, state: State, text: string): (State, Option<string>) {
    var (next, out) := RunRules(rules, 0, text, None, state);
    RunPaths(paths, text, out, next)
  }

  function Redaction(rules: Rules, paths: Paths): JsonText.Redaction<State> {
    (state, text) => Redact(rules, paths, state, text)
  }

  /** Nothing in the text for any rule or path; this does not depend on the run. */
  predicate Quiet(rules: Rules, paths: Paths, text: string) {
    && (forall i | 0 <= i < |rules| :: rules[i].find(text) == [])
    && (forall k | 0 <= k < |paths| :: !RedactPaths.Occurs(paths[k].needle, text))
  }

  lemma ExtendsOn(a: map<Secret, nat>, b: map<Secret, nat>, c: map<Secret, nat>)
    requires Extends(a, b) && Extends(b, c)
    ensures Extends(a, c)
  {}

  lemma {:induction false} RuleKeeps(rules: Rules, i: nat, text: string, out: Option<string>, state: State)
    requires i < |rules| && SeenOk(state.seen)
    ensures var (next, r) := RunRule(rules, i, text, out, state);
            && SeenOk(next.seen) && Extends(state.seen, next.seen) && |next.counts| == |state.counts|
            && (rules[i].find(Current(text, out)) == [] ==> r == out)
            && (rules[i].find(Current(text, out)) != [] ==> r.Some?)
  {
    hide SeenOk, NumberAll, Masked, Pieces;
    var current := Current(text, out);
    var spans := rules[i].find(current);
    assert SpansOk(spans, 0, current);
    if spans != [] {
      NumberAllKeeps(rules[i], i, Pieces(current, spans, 0), state.seen);
    }
  }

  lemma {:induction false} RulesKeep(rules: Rules, i: nat, text: string, out: Option<string>, state: State)
    requires i <= |rules| && SeenOk(state.seen)
    ensures var (after, r) := RunRules(rules, i, text, out, state);
            && SeenOk(after.seen) && Extends(state.seen, after.seen)
            && |after.counts| == |state.counts|
            && (r.None? <==> out.None? && forall k | i <= k < |rules| :: rules[k].find(text) == [])
    decreases |rules| - i
  {
    hide SeenOk, RunRule;
    if i < |rules| {
      var (next, r) := RunRule(rules, i, text, out, state);
      RuleKeeps(rules, i, text, out, state);
      RulesKeep(rules, i + 1, text, r, next);
      hide Extends;
      ExtendsOn(state.seen, next.seen, RunRules(rules, i + 1, text, r, next).0.seen);
    }
  }

  /** One string: the numbering stays sound, and nothing is returned exactly when nothing matched. */
  lemma {:induction false} RedactKeeps(rules: Rules, paths: Paths, state: State, text: string)
    requires SeenOk(state.seen)
    ensures var (after, r) := Redact(rules, paths, state, text);
            && SeenOk(after.seen) && Extends(state.seen, after.seen)
            && |after.counts| == |state.counts|
            && (r.None? <==> Quiet(rules, paths, text))
            && (r.None? ==> after == state)
  {
    RulesKeep(rules, 0, text, None, state);
    var (next, out) := RunRules(rules, 0, text, None, state);
    RedactPaths.NoHitsIff(Current(text, out), paths);
    if out.None? {
      QuietRules(rules, 0, text, state);
    }
  }

  lemma {:induction false} QuietRules(rules: Rules, i: nat, text: string, state: State)
    requires i <= |rules| && forall k | i <= k < |rules| :: rules[k].find(text) == []
    ensures RunRules(rules, i, text, None, state) == (state, None)
    decreases |rules| - i
  {
    if i < |rules| {
      QuietRules(rules, i + 1, text, state);
    }
  }

  // ------------------------------------------------------------ the rules one after the other

  /** The text and the numbering after the first `n` rules, each masking its matches in what the earlier ones left. */
  function AfterRules(rules: Rules, n: nat, text: string, seen: map<Secret, nat>): (string, map<Secret, nat>)
    requires n <= |rules|
  {
    if n == 0 then (text, seen)
    else
      var (t, numbered) := AfterRules(rules, n - 1, text, seen);
      var pieces := Pieces(t, rules[n - 1].find(t), 0);
      var all := NumberAll(rules[n - 1], n - 1, pieces, numbered);
      (Masked(rules[n - 1], n - 1, pieces, all), all)
  }

  /** A rule without a match leaves the text and the numbering. */
  lemma NoMatchNoChange(rule: Rule, index: nat, text: string, seen: map<Secret, nat>)
    ensures NumberAll(rule, index, Pieces(text, [], 0), seen) == seen
    ensures Masked(rule, index, Pieces(text, [], 0), seen) == text
  {
    LastPiece(rule, index, text[0..], seen);
    assert text[0..] == text;
  }

  /** Where the rules stand after the first `n`: what the pass has so far is what masking gives. */
  ghost predicate RulesAt(rules: Rules, n: nat, text: string, start: State, out: Option<string>, now: State)
    requires n <= |rules|
  {
    && AfterRules(rules, n, text, start.seen) == (Current(text, out), now.seen)
    && now.pathMatches == start.pathMatches && |now.counts| == |start.counts|
    && forall k | 0 <= k < |start.counts| ::
         now.counts[k] == start.counts[k] + if k < n then |rules[k].find(AfterRules(rules, k, text, start.seen).0)| else 0
  }

  /** One rule's turn is masking the current text, and counting its matches there. */
  lemma {:induction false} RunRuleMasks(rules: Rules, n: nat, text: string, out: Option<string>, now: State)
    requires n < |rules|
    ensures var t := Current(text, out);
            var (next, r) := RunRule(rules, n, text, out, now);
            var pieces := Pieces(t, rules[n].find(t), 0);
            var all := NumberAll(rules[n], n, pieces, now.seen);
            && Current(text, r) == Masked(rules[n], n, pieces, all) && next.seen == all
            && next.pathMatches == now.pathMatches && |next.counts| == |now.counts|
            && forall k | 0 <= k < |now.counts| ::
                 next.counts[k] == now.counts[k] + if k == n then |rules[n].find(t)| else 0
  {
    hide NumberAll, Masked, Pieces;
    var t := Current(text, out);
    if rules[n].find(t) == [] {
      NoMatchNoChange(rules[n], n, t, now.seen);
    }
  }

  lemma AfterOneMore(rules: Rules, n: nat, text: string, seen: map<Secret, nat>)
    requires n < |rules|
    ensures var (t, numbered) := AfterRules(rules, n, text, seen);
            var pieces := Pieces(t, rules[n].find(t), 0);
            var all := NumberAll(rules[n], n, pieces, numbered);
            AfterRules(rules, n + 1, text, seen) == (Masked(rules[n], n, pieces, all), all)
  {}

  lemma {:induction false} RuleComposes(
      rules: Rules, n: nat, text: string, start: State, out: Option<string>, now: State)
    requires n < |rules| && RulesAt(rules, n, text, start, out, now)
    ensures var (next, r) := RunRule(rules, n, text, out, now); RulesAt(rules, n + 1, text, start, r, next)
  {
    RunRuleMasks(rules, n, text, out, now);
    AfterOneMore(rules, n, text, start.seen);
    hide NumberAll, Masked, Pieces, RunRule, AfterRules, Current;
  }

  lemma {:induction false} RulesComposeFrom(
      rules: Rules, n: nat, text: string, start: State, out: Option<string>, now: State)
    requires n <= |rules| && RulesAt(rules, n, text, start, out, now)
    ensures var (last, r) := RunRules(rules, n, text, out, now); RulesAt(rules, |rules|, text, start, r, last)
    decreases |rules| - n
  {
    hide RunRule, RulesAt;
    if n < |rules| {
      RuleComposes(rules, n, text, start, out, now);
      var (next, r) := RunRule(rules, n, text, out, now);
      RulesComposeFrom(rules, n + 1, text, start, r, next);
    }
  }

  /**
   The pass over one text is masking by rule after rule, each on what the earlier
   ones left, and then the path pass; each rule counts the matches it found there.
   */
  lemma {:induction false} RulesCompose(rules: Rules, paths: Paths, state: State, text: string)
    ensures var (after, r) := Redact(rules, paths, state, text);
            var (masked, seen) := AfterRules(rules, |rules|, text, state.seen);
            && Current(text, r) == RedactPaths.Pass(masked, paths)
            && after.seen == seen && |after.counts| == |state.counts|
            && after.pathMatches == state.pathMatches + RedactPaths.Hits(masked, paths)
            && forall k | 0 <= k < |rules| && k < |state.counts| ::
                 after.counts[k] == state.counts[k] + |rules[k].find(AfterRules(rules, k, text, state.seen).0)|
  {
    hide RunRules, AfterRules;
    AtFirstRule(rules, text, state);
    RulesComposeFrom(rules, 0, text, state, None, state);
    var (next, out) := RunRules(rules, 0, text, None, state);
    RedactPaths.NoHitsIff(Current(text, out), paths);
  }

  lemma AtFirstRule(rules: Rules, text: string, state: State)
    ensures RulesAt(rules, 0, text, state, None, state)
  {}

  /** The first secret of a run, alone in its text: it is replaced by the token of its rule with number 1, and nothing else changes. */
  lemma {:induction false} FirstSecretIsMasked(rules: Rules, i: nat, before: string, secret: string, after: string)
    requires i < |rules| && rules[i].replace.None?
    requires rules[i].find(before + secret + after) == [Span(|before|, |before|, |before| + |secret|, |before| + |secret|)]
    requires forall k | 0 <= k < i :: rules[k].find(before + secret + after) == []
    ensures AfterRules(rules, i + 1, before + secret + after, map[]) ==
            (before + ("<REDACTED:" + rules[i].name + ":" + Digits(1) + ">") + after, map[(i, secret) := 1])
    ensures Digits(1) == "1"
  {
    var text := before + secret + after;
    QuietSoFar(rules, i, text, map[]);
    AfterOneMore(rules, i, text, map[]);
    hide AfterRules, Pieces, NumberAll, Masked;
    OneMatchPieces(before, secret, after);
    MaskOne(rules[i], i, before, secret, after);
  }

  lemma {:induction false} OneMatchPieces(before: string, secret: string, after: string)
    ensures var text, s := before + secret + after, Span(|before|, |before|, |before| + |secret|, |before| + |secret|);
            SpansOk([s], 0, text)
            && Pieces(text, [s], 0) == [Kept(before), Hidden(secret), Kept("")] + [Kept(after)]
  {
    var text, s := before + secret + after, Span(|before|, |before|, |before| + |secret|, |before| + |secret|);
    assert [s][1..] == [];
    assert text[0..|before|] == before && text[s.secretStart..s.secretEnd] == secret && text[s.secretEnd..s.end] == "";
    assert text[s.end..] == after;
    assert Pieces(text, [], s.end) == [Kept(after)];
    assert Pieces(text, [s][1..], s.end) == [Kept(after)];
  }

  lemma FirstToken(rule: Rule, i: nat, secret: string)
    requires rule.replace.None?
    ensures Touch(rule, i, secret, map[]) == map[(i, secret) := 1]
    ensures TokenText(rule, i, secret, map[(i, secret) := 1]) == "<REDACTED:" + rule.name + ":" + Digits(1) + ">"
  {}

  lemma {:induction false} MaskOne(rule: Rule, i: nat, before: string, secret: string, after: string)
    requires rule.replace.None?
    ensures var pieces := [Kept(before), Hidden(secret), Kept("")] + [Kept(after)];
            var seen := map[(i, secret) := 1];
            && NumberAll(rule, i, pieces, map[]) == seen
            && Masked(rule, i, pieces, seen) == before + ("<REDACTED:" + rule.name + ":" + Digits(1) + ">") + after
  {
    hide NumberAll, Masked, Touch, TokenText, Digits;
    var pieces := [Kept(before), Hidden(secret), Kept("")] + [Kept(after)];
    var seen := map[(i, secret) := 1];
    FirstToken(rule, i, secret);
    MatchPieces(rule, i, before, secret, "", [Kept(after)], map[], "");
    MatchPieces(rule, i, before, secret, "", [Kept(after)], seen, "");
    LastPiece(rule, i, after, seen);
    var masked, token := Masked(rule, i, pieces, seen), TokenText(rule, i, secret, seen);
    assert "" + masked == masked && "" + (before + token + "") + after == before + token + after;
  }

  lemma {:induction false} QuietSoFar(rules: Rules, n: nat, text: string, seen: map<Secret, nat>)
    requires n <= |rules| && forall k | 0 <= k < n :: rules[k].find(text) == []
    ensures AfterRules(rules, n, text, seen) == (text, seen)
  {
    if n > 0 {
      QuietSoFar(rules, n - 1, text, seen);
      NoMatchNoChange(rules[n - 1], n - 1, text, seen);
    }
  }

  /** What rule `i` makes of a text, with any numbering. */
  function MaskedBy(rules: Rules, i: nat, text: string, seen: map<Secret, nat>): string
    requires i < |rules|
  {
    Masked(rules[i], i, Pieces(text, rules[i].find(text), 0), seen)
  }

  /** Masking leaves nothing of its own rule, and brings nothing for a rule that had nothing. */
  ghost predicate MaskingIsClean(rules: Rules) {
    && (forall i, t, seen | 0 <= i < |rules| :: rules[i].find(MaskedBy(rules, i, t, seen)) == [])
    && (forall i, j, t, seen | 0 <= i < |rules| && 0 <= j < |rules| && rules[j].find(t) == [] ::
          rules[j].find(MaskedBy(rules, i, t, seen)) == [])
  }

  /** Under such rules no secret that any rule could match is left once all have run. */
  lemma {:induction false} NoRuleMatchesAfterwards(rules: Rules, n: nat, text: string, seen: map<Secret, nat>, j: nat)
    requires MaskingIsClean(rules) && j < n <= |rules|
    ensures rules[j].find(AfterRules(rules, n, text, seen).0) == []
    decreases n
  {
    var (t, numbered) := AfterRules(rules, n - 1, text, seen);
    var pieces := Pieces(t, rules[n - 1].find(t), 0);
    var all := NumberAll(rules[n - 1], n - 1, pieces, numbered);
    assert AfterRules(rules, n, text, seen).0 == MaskedBy(rules, n - 1, t, all);
    if j < n - 1 {
      NoRuleMatchesAfterwards(rules, n - 1, text, seen, j);
    }
  }

  /** The paths run last, so no needle is left in what is stored, whatever the rules put there. */
  lemma {:induction false} RedactedHoldsNoPath(rules: Rules, paths: Paths, state: State, text: string, k: nat)
    requires RedactPaths.TokensClear(paths) && k < |paths|
    ensures !RedactPaths.Occurs(paths[k].needle, Current(text, Redact(rules, paths, state, text).1))
  {
    var (next, out) := RunRules(rules, 0, text, None, state);
    RedactPaths.NoHitsIff(Current(text, out), paths);
    RedactPaths.NothingIsLeft(Current(text, out), paths, k);
  }

  // ------------------------------------------------------------ rewritten text shows it

  /** Lower-case hexadecimal digits and nothing else, as in a hash. */
  predicate HexOnly(s: string) {
    forall c | c in s :: '0' <= c <= '9' || 'a' <= c <= 'f'
  }

  lemma HexOfParts(a: string, b: string)
    ensures HexOnly(a + b) <==> HexOnly(a) && HexOnly(b)
  {
    assert forall c | c in a :: c in a + b;
    assert forall c | c in b :: c in a + b;
  }

  /** What the rule puts in place of a secret could not be part of a hash; no numbered token could. */
  predicate LeavesMark(rule: Rule) {
    rule.replace.Some? ==> !HexOnly(rule.replace.value)
  }

  predicate AllLeaveMarks(rules: seq<Rule>) {
    forall i | 0 <= i < |rules| :: LeavesMark(rules[i])
  }

  lemma {:induction false} MaskedIsMarked(
      rule: Rule, index: nat, text: string, spans: seq<Span>, from: nat, seen: map<Secret, nat>)
    requires LeavesMark(rule) && from <= |text| && SpansOk(spans, from, text) && spans != []
    ensures !HexOnly(Masked(rule, index, Pieces(text, spans, from), seen))
  {
    var s := spans[0];
    var rest := Pieces(text, spans[1..], s.end);
    var secret := text[s.secretStart..s.secretEnd];
    var before, after := text[from..s.secretStart], text[s.secretEnd..s.end];
    MatchPieces(rule, index, before, secret, after, rest, seen, "");
    var token := TokenText(rule, index, secret, seen);
    if rule.replace.None? {
      assert token[0] == '<' && token[0] in token;
    }
    var masked := Masked(rule, index, rest, seen);
    HexOfParts(before, token);
    HexOfParts(before + token, after);
    HexOfParts(before + token + after, masked);
    assert "" + (before + token + after) == before + token + after;
    assert "" + Masked(rule, index, Pieces(text, spans, from), seen) == Masked(rule, index, Pieces(text, spans, from), seen);
  }

  lemma {:induction false} RulesMark(rules: Rules, i: nat, text: string, out: Option<string>, state: State)
    requires i <= |rules| && AllLeaveMarks(rules)
    requires out.Some? ==> !HexOnly(out.value)
    ensures var r := RunRules(rules, i, text, out, state).1;
            r.Some? ==> !HexOnly(r.value)
    decreases |rules| - i
  {
    hide HexOnly;
    if i < |rules| {
      var current := Current(text, out);
      var spans := rules[i].find(current);
      assert SpansOk(spans, 0, current);
      if spans != [] {
        var pieces := Pieces(current, spans, 0);
        MaskedIsMarked(rules[i], i, current, spans, 0, NumberAll(rules[i], i, pieces, state.seen));
      }
      var (next, r) := RunRule(rules, i, text, out, state);
      RulesMark(rules, i + 1, text, r, next);
    }
  }

  lemma {:induction false} PassMarks(text: string, paths: seq<RedactPaths.Entry>)
    requires RedactPaths.Needles(paths) && ('<' in text || RedactPaths.Hits(text, paths) > 0)
    ensures '<' in RedactPaths.Pass(text, paths)
    decreases |paths|
  {
    if paths != [] {
      var needle, token := paths[0].needle, RedactPaths.Text(paths[0].token);
      var next := RedactPaths.Replace(text, needle, token);
      assert token[0] == '<';
      var found := RedactPaths.Find(text, needle);
      if found.Some? {
        RedactPaths.ReplaceFirst(text, needle, token, found.value);
        assert next[found.value] == '<';
      }
      PassMarks(next, paths[1..]);
    }
  }

  /** Whatever the pass returns is no hash. */
  lemma {:induction false} RedactMarks(rules: Rules, paths: Paths, state: State, text: string)
    requires AllLeaveMarks(rules)
    ensures var r := Redact(rules, paths, state, text).1;
            r.Some? ==> !HexOnly(r.value)
  {
    RulesMark(rules, 0, text, None, state);
    var (next, out) := RunRules(rules, 0, text, None, state);
    if RedactPaths.Hits(Current(text, out), paths) > 0 {
      PassMarks(Current(text, out), paths);
    }
  }

  // ------------------------------------------------------------ JSON values

  /** No string anywhere in the value has a match. */
  predicate AllQuiet(rules: Rules, paths: Paths, v: Value) {
    match v
    case Str(s) => Quiet(rules, paths, s)
    case Arr(items) => forall i | 0 <= i < |items| :: AllQuiet(rules, paths, items[i])
    case Obj(fields) => forall k | k in fields :: AllQuiet(rules, paths, fields[k])
    case _ => true
  }

  /** The string is as it was, or what the pass made of it at some point of the run. */
  ghost predicate StringRedacted(rules: Rules, paths: Paths, before: string, after: string) {
    if Quiet(rules, paths, before) then after == before
    else exists state :: Redact(rules, paths, state, before).1 == Some(after)
  }

  /** Only strings change: keys, lengths, numbers and nesting stay. */
  ghost predicate ValueRedacted(rules: Rules, paths: Paths, before: Value, after: Value) {
    match before
    case Str(s) => after.Str? && StringRedacted(rules, paths, s, after.s)
    case Arr(items) =>
      after.Arr? && |after.items| == |items|
      && forall i | 0 <= i < |items| :: ValueRedacted(rules, paths, items[i], after.items[i])
    case Obj(fields) =>
      after.Obj? && after.fields.Keys == fields.Keys
      && forall k | k in fields :: ValueRedacted(rules, paths, fields[k], after.fields[k])
    case _ => after == before
  }

  /** `redact_value` as a function of the state: members in the order of their keys, items from the left. */
  function RedactTree(rules: Rules, paths: Paths, state: State, v: Value): (State, Value)
    decreases v, 1, 0
  {
    match v
    case Str(s) =>
      var (next, r) := Redact(rules, paths, state, s);
      (next, Str(Current(s, r)))
    case Arr(items) =>
      var (next, redacted) := RedactItems(rules, paths, state, v, 0);
      (next, Arr(redacted))
    case Obj(fields) =>
      var (next, redacted) := RedactMembers(rules, paths, state, v, fields.Keys);
      (next, Obj(redacted))
    case _ => (state, v)
  }

  function RedactItems(rules: Rules, paths: Paths, state: State, v: Value, i: nat): (State, seq<Value>)
    requires v.Arr? && i <= |v.items|
    decreases v, 0, |v.items| - i
  {
    if i == |v.items| then (state, [])
    else
      var (next, item) := RedactTree(rules, paths, state, v.items[i]);
      var (last, rest) := RedactItems(rules, paths, next, v, i + 1);
      (last, [item] + rest)
  }

  function RedactMembers(rules: Rules, paths: Paths, state: State, v: Value, left: set<string>)
    : (State, map<string, Value>)
    requires v.Obj? && left <= v.fields.Keys
    decreases v, 0, |left|
  {
    if left == {} then (state, map[])
    else
      var k := First(left);
      var (next, item) := RedactTree(rules, paths, state, v.fields[k]);
      var (last, rest) := RedactMembers(rules, paths, next, v, left - {k});
      (last, map[k := item] + rest)
  }

  /** Nothing is returned exactly when nothing matched, in any state. */
  lemma {:induction false} NoneIffQuiet(rules: Rules, paths: Paths, state: State, text: string)
    ensures Redact(rules, paths, state, text).1.None? <==> Quiet(rules, paths, text)
    ensures Quiet(rules, paths, text) ==> Redact(rules, paths, state, text) == (state, None)
  {
    RulesMatchIff(rules, 0, text, None, state);
    var (next, out) := RunRules(rules, 0, text, None, state);
    RedactPaths.NoHitsIff(Current(text, out), paths);
    if out.None? {
      QuietRules(rules, 0, text, state);
    }
  }

  lemma {:induction false} RulesMatchIff(rules: Rules, i: nat, text: string, out: Option<string>, state: State)
    requires i <= |rules|
    ensures RunRules(rules, i, text, out, state).1.None? <==>
            out.None? && forall k | i <= k < |rules| :: rules[k].find(text) == []
    decreases |rules| - i
  {
    if i < |rules| {
      var (next, r) := RunRule(rules, i, text, out, state);
      RulesMatchIff(rules, i + 1, text, r, next);
    }
  }

  /** Every string of the tree becomes what the pass makes of it in its turn, and nothing else changes. */
  lemma {:induction false} TreeIsRedacted(rules: Rules, paths: Paths, state: State, v: Value)
    ensures ValueRedacted(rules, paths, v, RedactTree(rules, paths, state, v).1)
    decreases v, 1, 0
  {
    hide Redact, Quiet;
    match v
    case Str(s) => NoneIffQuiet(rules, paths, state, s);
    case Arr(_) => ItemsAreRedacted(rules, paths, state, v, 0);
    case Obj(fields) => MembersAreRedacted(rules, paths, state, v, fields.Keys);
    case _ =>
  }

  lemma {:induction false} ItemsAreRedacted(rules: Rules, paths: Paths, state: State, v: Value, i: nat)
    requires v.Arr? && i <= |v.items|
    ensures var redacted := RedactItems(rules, paths, state, v, i).1;
            |redacted| == |v.items| - i
            && forall k | 0 <= k < |redacted| :: ValueRedacted(rules, paths, v.items[i + k], redacted[k])
    decreases v, 0, |v.items| - i
  {
    hide ValueRedacted;
    if i < |v.items| {
      TreeIsRedacted(rules, paths, state, v.items[i]);
      var next := RedactTree(rules, paths, state, v.items[i]).0;
      ItemsAreRedacted(rules, paths, next, v, i + 1);
    }
  }

  lemma {:induction false} MembersAreRedacted(rules: Rules, paths: Paths, state: State, v: Value, left: set<string>)
    requires v.Obj? && left <= v.fields.Keys
    ensures var redacted := RedactMembers(rules, paths, state, v, left).1;
            redacted.Keys == left && forall k | k in left :: ValueRedacted(rules, paths, v.fields[k], redacted[k])
    decreases v, 0, |left|
  {
    hide ValueRedacted, RedactTree;
    if left != {} {
      var k := First(left);
      TreeIsRedacted(rules, paths, state, v.fields[k]);
      var next := RedactTree(rules, paths, state, v.fields[k]).0;
      MembersAreRedacted(rules, paths, next, v, left - {k});
    }
  }

  lemma {:induction false} RedactedHasSameShape(rules: Rules, paths: Paths, before: Value, after: Value)
    requires ValueRedacted(rules, paths, before, after)
    ensures SameShape(before, after)
  {
    match before
    case Arr(items) =>
      forall i | 0 <= i < |items| ensures SameShape(items[i], after.items[i]) {
        RedactedHasSameShape(rules, paths, items[i], after.items[i]);
      }
    case Obj(fields) =>
      forall k | k in fields ensures SameShape(fields[k], after.fields[k]) {
        RedactedHasSameShape(rules, paths, fields[k], after.fields[k]);
      }
    case _ =>
  }

  lemma {:induction false} QuietIsUnchanged(rules: Rules, paths: Paths, before: Value, after: Value)
    requires ValueRedacted(rules, paths, before, after) && AllQuiet(rules, paths, before)
    ensures after == before
  {
    match before
    case Arr(items) =>
      forall i | 0 <= i < |items| ensures after.items[i] == items[i] {
        QuietIsUnchanged(rules, paths, items[i], after.items[i]);
      }
      assert after.items == items;
    case Obj(fields) =>
      forall k | k in fields ensures after.fields[k] == fields[k] {
        QuietIsUnchanged(rules, paths, fields[k], after.fields[k]);
      }
      assert after.fields == fields;
    case _ =>
  }

  // ------------------------------------------------------------ the pass, in place

  datatype NotJson = NotJson

  class Redactor {
    const rules: Rules
    const paths: Paths
    var seen: map<Secret, nat>
    var counts: seq<nat>
    var pathMatches: nat

    ghost predicate Valid()
      reads this
    {
      |counts| == |rules| && SeenOk(seen)
    }

    function Now(): State
      reads this
    {
      State(seen, counts, pathMatches)
    }

    constructor (rules: Rules, paths: Paths)
      ensures Valid() && this.rules == rules && this.paths == paths
      ensures seen == map[] && pathMatches == 0 && forall i | 0 <= i < |rules| :: counts[i] == 0
    {
      this.rules, this.paths, seen, pathMatches := rules, paths, map[], 0;
      counts := seq(|rules|, i => 0);
    }

    /** `token`. */
    method Token(rule: nat, secret: string) returns (token: string)
      requires Valid() && rule < |rules|
      modifies this`seen
      ensures Valid() && Extends(old(seen), seen)
      ensures seen == Touch(rules[rule], rule, secret, old(seen))
      ensures rules[rule].replace.Some? || (rule, secret) in seen
      ensures token == TokenText(rules[rule], rule, secret, seen)
    {
      if rules[rule].replace.Some? {
        return rules[rule].replace.value;
      }
      GiveKeeps(seen, (rule, secret));
      var next := |seen| + 1;
      if (rule, secret) !in seen {
        seen := seen[(rule, secret) := next];
      }
      return Numbered(rules[rule].name, seen[(rule, secret)]);
    }

    /** One rule's `replace_all`, match by match. */
    method ReplaceMatches(rule: nat, text: string, spans: seq<Span>) returns (out: string)
      requires Valid() && rule < |rules| && SpansOk(spans, 0, text)
      modifies this`seen
      ensures Valid()
      ensures (out, seen) == ReplaceAll(rules[rule], rule, text, spans, old(seen))
    {
      hide SeenOk, TokenText, Touch, NumberAll, Masked;
      out := "";
      var from: nat := 0;
      ghost var all := Pieces(text, spans, 0);
      ghost var after := NumberAll(rules[rule], rule, all, seen);
      ghost var goal := Masked(rules[rule], rule, all, after);
      assert "" + goal == goal;
      for k := 0 to |spans|
        invariant Valid() && from <= |text| && SpansOk(spans[k..], from, text)
        invariant NumberAll(rules[rule], rule, Pieces(text, spans[k..], from), seen) == after
        invariant out + Masked(rules[rule], rule, Pieces(text, spans[k..], from), after) == goal
      {
        var s := spans[k];
        assert spans[k..][1..] == spans[k + 1..];
        var prefix, secret, suffix := text[from..s.secretStart], text[s.secretStart..s.secretEnd], text[s.secretEnd..s.end];
        ghost var rest := Pieces(text, spans[k + 1..], s.end);
        MatchPieces(rules[rule], rule, prefix, secret, suffix, rest, seen, out);
        MatchPieces(rules[rule], rule, prefix, secret, suffix, rest, after, out);
        var token := Token(rule, secret);
        NumberAllKeeps(rules[rule], rule, rest, seen);
        TokensAreStable(rules[rule], rule, secret, seen, after);
        out := out + (prefix + token + suffix);
        from := s.end;
      }
      LastPiece(rules[rule], rule, text[from..], seen);
      out := out + text[from..];
    }

    /** The rules, one after the other, each on what the earlier ones left. */
    method ApplyRules(text: string) returns (out: Option<string>)
      requires Valid()
      modifies this
      ensures Valid() && (Now(), out) == RunRules(rules, 0, text, None, old(Now()))
    {
      hide ReplaceAll, SeenOk;
      ghost var goal := RunRules(rules, 0, text, None, Now());
      out := None;
      for i := 0 to |rules|
        invariant Valid() && goal == RunRules(rules, i, text, out, Now())
      {
        var current := Current(text, out);
        var spans := rules[i].find(current);
        if spans != [] {
          var replaced := ReplaceMatches(i, current, spans);
          counts := CountMore(counts, i, |spans|);
          out := Some(replaced);
        }
      }
    }

    /** The paths, after the rules. */
    method ReplacePaths(text: string, found: Option<string>) returns (out: Option<string>)
      modifies this`pathMatches
      ensures (Now(), out) == RunPaths(paths, text, found, old(Now()))
    {
      out := found;
      if paths != [] {
        var replaced, n := RedactPaths.ApplyPaths(paths, Current(text, found));
        if n > 0 {
          pathMatches := pathMatches + n;
          out := Some(replaced);
        }
      }
    }

    /** `redact_str`. */
    method RedactStr(text: string) returns (out: Option<string>)
      requires Valid()
      modifies this
      ensures Valid() && Extends(old(seen), seen)
      ensures (Now(), out) == Redact(rules, paths, old(Now()), text)
      ensures out.None? <==> Quiet(rules, paths, text)
      ensures out.None? ==> Now() == old(Now())
    {
      hide RunRules, RunPaths, SeenOk, Quiet, Extends;
      RedactKeeps(rules, paths, Now(), text);
      out := ApplyRules(text);
      out := ReplacePaths(text, out);
    }

    /** `redact_json_text`: an unterminated literal is an error; nothing is returned when no literal was rewritten. */
    method RedactJsonText(text: string) returns (r: Result<Option<string>, NotJson>)
      requires Valid()
      modifies this
      ensures Valid() && Extends(old(seen), seen)
      ensures var all := JsonText.Rewrite(text, Redaction(rules, paths), old(Now()));
              && Now() == all.state
              && r == (if all.pieces.None? then Err(NotJson)
                       else if all.touched then Ok(Some(JsonText.Render(all.pieces.value))) else Ok(None))
    {
      hide Redact, SeenOk, JsonText.Remains, JsonText.Rewrite, JsonText.CloseAt, JsonText.Unescaped, JsonText.Escaped;
      ghost var redact := Redaction(rules, paths);
      ghost var all := JsonText.Rewrite(text, redact, Now());
      var out := "";
      var last: nat, i: nat := 0, 0;
      JsonText.RewriteStarts(text, redact, Now());
      while i < |text|
        invariant Valid() && Extends(old(seen), seen) && last <= i <= |text|
        invariant JsonText.Remains(all, text, out, last, i, redact, Now())
      {
        if text[i] != JsonText.QUOTE {
          JsonText.GapRemains(all, text, out, last, i, redact, Now());
          i := i + 1;
        } else {
          var start := i;
          var close := JsonText.FindClose(text, i + 1);
          if close.None? {
            JsonText.NeverCloses(all, text, out, last, i, redact, Now());
            return Err(NotJson);
          }
          var body := text[start + 1..close.value];
          var value := JsonText.Unescaped(body);
          ghost var was := Now();
          var changed := None;
          if value.Some? {
            changed := RedactStr(value.value);
          }
          JsonText.LiteralRemains(all, text, out, last, start, close.value, redact, was);
          i := close.value + 1;
          if changed.Some? {
            out := out + text[last..start] + ("\"" + JsonText.Escaped(changed.value) + "\"");
            last := i;
          }
        }
      }
      JsonText.NothingRemains(all, text, out, last, redact, Now());
      if last == 0 {
        return Ok(None);
      }
      return Ok(Some(out + text[last..]));
    }

    /** `redact_value`: the redacted value, and whether any string had a match. */
    method RedactValue(value: Value) returns (after: Value, changed: bool)
      requires Valid()
      modifies this
      ensures Valid() && Extends(old(seen), seen)
      ensures (Now(), after) == RedactTree(rules, paths, old(Now()), value)
      ensures changed <==> !AllQuiet(rules, paths, value)
      decreases value, 1
    {
      hide SeenOk, Redact, Quiet, RedactItems, RedactMembers;
      match value
      case Str(s) =>
        var r := RedactStr(s);
        after, changed := Str(Current(s, r)), r.Some?;
      case Arr(_) =>
        after, changed := RedactArray(value);
      case Obj(_) =>
        after, changed := RedactObject(value);
      case _ =>
        after, changed := value, false;
    }

    method RedactArray(value: Value) returns (after: Value, changed: bool)
      requires Valid() && value.Arr?
      modifies this
      ensures Valid() && Extends(old(seen), seen)
      ensures (Now(), after) == RedactTree(rules, paths, old(Now()), value)
      ensures changed <==> !AllQuiet(rules, paths, value)
      decreases value, 0
    {
      hide SeenOk, Redact, Quiet;
      ghost var goal := RedactItems(rules, paths, Now(), value, 0);
      var redacted: seq<Value> := [];
      changed := false;
      for i := 0 to |value.items|
        invariant Valid() && Extends(old(seen), seen)
        invariant RedactItems(rules, paths, Now(), value, i).0 == goal.0
        invariant redacted + RedactItems(rules, paths, Now(), value, i).1 == goal.1
        invariant changed <==> exists k | 0 <= k < i :: !AllQuiet(rules, paths, value.items[k])
      {
        ghost var was := redacted;
        var item, touched := RedactValue(value.items[i]);
        ghost var rest := RedactItems(rules, paths, Now(), value, i + 1).1;
        assert was + ([item] + rest) == was + [item] + rest;
        redacted, changed := redacted + [item], changed || touched;
      }
      assert redacted + [] == redacted;
      after := Arr(redacted);
    }

    method RedactObject(value: Value) returns (after: Value, changed: bool)
      requires Valid() && value.Obj?
      modifies this
      ensures Valid() && Extends(old(seen), seen)
      ensures (Now(), after) == RedactTree(rules, paths, old(Now()), value)
      ensures changed <==> !AllQuiet(rules, paths, value)
      decreases value, 0
    {
      hide SeenOk, Redact, AllQuiet, MembersQuiet, RedactMembers;
      ghost var start, keys := Now(), value.fields.Keys;
      ghost var goal := RedactMembers(rules, paths, start, value, keys);
      var redacted: map<string, Value> := map[];
      changed := false;
      var left := value.fields.Keys;
      MembersStart(rules, paths, value, goal.1);
      while left != {}
        invariant Valid() && Extends(old(seen), seen) && left <= keys
        invariant RedactMembers(rules, paths, Now(), value, left).0 == goal.0
        invariant redacted + RedactMembers(rules, paths, Now(), value, left).1 == goal.1
        invariant changed <==> !MembersQuiet(rules, paths, value, keys - left)
        decreases left
      {
        var k := NextKey(left);
        MemberStep(rules, paths, Now(), value, left, redacted);
        var item, touched := RedactValue(value.fields[k]);
        redacted, changed, left := redacted[k := item], changed || touched, left - {k};
      }
      MembersEnd(rules, paths, Now(), value, redacted);
      assert (Now(), redacted) == goal;
      after := Obj(redacted);
      assert RedactTree(rules, paths, start, value) == (Now(), after);
    }
  }

  predicate MembersQuiet(rules: Rules, paths: Paths, v: Value, keys: set<string>)
    requires v.Obj? && keys <= v.fields.Keys
  {
    forall k | k in keys :: AllQuiet(rules, paths, v.fields[k])
  }

  lemma MembersStart(rules: Rules, paths: Paths, v: Value, all: map<string, Value>)
    requires v.Obj?
    ensures MembersQuiet(rules, paths, v, v.fields.Keys - v.fields.Keys) && map[] + all == all
  {}

  /** One member more. */
  lemma MemberStep(rules: Rules, paths: Paths, state: State, v: Value, left: set<string>, done: map<string, Value>)
    requires v.Obj? && left <= v.fields.Keys && left != {}
    ensures var k := First(left);
            var (next, item) := RedactTree(rules, paths, state, v.fields[k]);
            && RedactMembers(rules, paths, state, v, left).0 == RedactMembers(rules, paths, next, v, left - {k}).0
            && done + RedactMembers(rules, paths, state, v, left).1
               == done[k := item] + RedactMembers(rules, paths, next, v, left - {k}).1
            && (MembersQuiet(rules, paths, v, v.fields.Keys - (left - {k})) <==>
                MembersQuiet(rules, paths, v, v.fields.Keys - left) && AllQuiet(rules, paths, v.fields[k]))
  {
    hide AllQuiet, RedactTree;
    var k := First(left);
    var (next, item) := RedactTree(rules, paths, state, v.fields[k]);
    var rest := RedactMembers(rules, paths, next, v, left - {k}).1;
    assert done + (map[k := item] + rest) == done[k := item] + rest;
    assert v.fields.Keys - (left - {k}) == v.fields.Keys - left + {k};
  }

  lemma MembersEnd(rules: Rules, paths: Paths, state: State, v: Value, done: map<string, Value>)
    requires v.Obj?
    ensures RedactMembers(rules, paths, state, v, {}) == (state, map[]) && done + map[] == done
    ensures MembersQuiet(rules, paths, v, v.fields.Keys - {}) <==> AllQuiet(rules, paths, v)
  {
    assert v.fields.Keys - {} == v.fields.Keys;
  }
}
