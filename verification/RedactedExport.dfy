/**
 The export under the redactor's own pass: whether the requests of a bundle still
 pass the hash stage of the replay checker once it has been imported.
 */
module RedactedExport {
  import opened Common
  import opened Json
  import opened Bundle
  import Redactor

  type RedactBlob = (Redactor.State, Bytes, string) -> (Redactor.State, Option<Bytes>)

  /** The redactor's pass; which bodies it reads as text, and how, is left open. */
  function RedactorPass(rules: Redactor.Rules, paths: Redactor.Paths, blob: RedactBlob): Pass<Redactor.State> {
    Pass(blob, (state, v) => Redactor.RedactTree(rules, paths, state, v))
  }

  /** It changes strings only, as an export requires. */
  lemma {:induction false} RedactorKeepsShape(rules: Redactor.Rules, paths: Redactor.Paths, blob: RedactBlob)
    ensures KeepsShape(RedactorPass(rules, paths, blob))
  {
    forall state, v ensures SameShape(v, Redactor.RedactTree(rules, paths, state, v).1) {
      var after := Redactor.RedactTree(rules, paths, state, v).1;
      Redactor.TreeIsRedacted(rules, paths, state, v);
      Redactor.RedactedHasSameShape(rules, paths, v, after);
    }
  }

  ghost predicate HexHash(hash: Hash) {
    forall bytes :: Redactor.HexOnly(hash(bytes))
  }

  /** No rule and no path matches the hash that the payload records. */
  predicate HashIsQuiet(rules: Redactor.Rules, paths: Redactor.Paths, e: Event) {
    var named := Member(e.payload, REQUEST_HASH);
    named.Some? && named.value.Str? ==> Redactor.Quiet(rules, paths, named.value.s)
  }

  /** One request whose body stays, in any state of the run. */
  lemma {:induction false} HashStageIff(
      rules: Redactor.Rules, paths: Redactor.Paths, state: Redactor.State,
      e: Event, blobMap: map<Id, Id>, newSize: map<Id, nat>, hash: Hash, bytes: Bytes)
    requires Redactor.AllLeaveMarks(rules) && HexHash(hash)
    requires e.kind == MENTOR_REQUEST && e.payload.Obj? && !IsTouched(e, blobMap) && HashStage(e, bytes, hash)
    ensures var payload := Redactor.RedactTree(rules, paths, state, e.payload).1;
            payload.Obj?
            && (HashStage(Rewritten(e, payload, blobMap, newSize), bytes, hash) <==> HashIsQuiet(rules, paths, e))
  {
    var payload := Redactor.RedactTree(rules, paths, state, e.payload).1;
    Redactor.TreeIsRedacted(rules, paths, state, e.payload);
    Redactor.RedactedHasSameShape(rules, paths, e.payload, payload);
    hide HashStage, Redactor.RedactTree, Redactor.Quiet, SameShape;
    HashKeptIff(e, payload, blobMap, newSize, hash, bytes) by {
      assert payload.Obj?;
    }
    var named := Member(e.payload, REQUEST_HASH);
    if named.Some? && named.value.Str? {
      HashRedactedIff(rules, paths, named.value.s, payload.fields[REQUEST_HASH].s) by {
        assert named.value.s == hash(bytes) by { NamedHash(e, bytes, hash); }
      }
    }
  }

  lemma NamedHash(e: Event, bytes: Bytes, hash: Hash)
    requires HashStage(e, bytes, hash)
    ensures var named := Member(e.payload, REQUEST_HASH);
            named.Some? && named.value.Str? ==> named.value.s == hash(bytes)
  {}

  lemma {:induction false} HashRedactedIff(rules: Redactor.Rules, paths: Redactor.Paths, h: string, after: string)
    requires Redactor.AllLeaveMarks(rules) && Redactor.HexOnly(h) && Redactor.StringRedacted(rules, paths, h, after)
    ensures after == h <==> Redactor.Quiet(rules, paths, h)
  {
    if !Redactor.Quiet(rules, paths, h) {
      var state :| Redactor.Redact(rules, paths, state, h).1 == Some(after);
      Redactor.RedactMarks(rules, paths, state, h);
    }
  }

  /**
   A request that passed the hash stage before the export, and whose body was not
   rewritten, passes it after the import exactly when the redaction has nothing
   to replace in its recorded hash.
   */
  lemma {:induction false} UntouchedRequestsPassIff(
      rules: Redactor.Rules, paths: Redactor.Paths, blob: RedactBlob,
      blobs: seq<BlobRow>, events: seq<Event>, store: Blobs, x: Export<Redactor.State>,
      rows: seq<BlobRow>, payloads: seq<Value>, into: Blobs, i: nat, j: nat)
    requires Redactor.AllLeaveMarks(rules) && HexHash(x.hash) && CollisionFree(x.hash)
    requires Exportable(blobs, events, store, x.hash) && Exported(blobs, events, store, x, rows, payloads)
    requires x.pass == Some(RedactorPass(rules, paths, blob)) && ContentAddressed(into, x.hash)
    requires i < |events| && events[i].kind == MENTOR_REQUEST && !IsTouched(events[i], x.blobMap)
    requires j < |blobs| && events[i].blobId == Some(blobs[j].id) && !Missing(blobs[j], store)
    requires PassesHashStage(events[i], store, x.hash)
    ensures PassesHashStage(x.events[i], ImportFiles(into, x.blobs, x.dir), x.hash) <==> HashIsQuiet(rules, paths, events[i])
  {
    var e := events[i];
    UntouchedBodyArrives(blobs, events, store, x, rows, payloads, into, i, j);
    assert EventOk(e, payloads[i], x.events[i], x.blobMap, x.newSize);
    assert PayloadOutcome(x.pass, e.payload, payloads[i]);
    var state :| Redactor.RedactTree(rules, paths, state, e.payload).1 == payloads[i];
    HashStageIff(rules, paths, state, e, x.blobMap, x.newSize, x.hash, store[blobs[j].id]);
  }

  // ------------------------------------------------------------ a pattern that breaks the replay

  /** A rule for texts of hexadecimal digits, of which a hash is one. */
  function HexRule(): Redactor.Rule {
    Redactor.Rule(
      "hex", text => if text != "" && Redactor.HexOnly(text) then [Redactor.Span(0, 0, |text|, |text|)] else [], None)
  }

  /** Its match in the recorded hash fails the request in every run, though the body stays and nothing counts as touched. */
  lemma {:induction false} HexRuleBreaksReplay(
      state: Redactor.State, hash: Hash, body: Bytes, blobMap: map<Id, Id>, newSize: map<Id, nat>)
    requires HexHash(hash) && hash(body) != "" && hash(body) !in blobMap
    ensures Redactor.RulesOk([HexRule()])
    ensures var h := hash(body);
            var e := Event("e", MENTOR_REQUEST, Some(h), Obj(map[REQUEST_HASH := Str(h)]));
            var payload := Redactor.RedactTree([HexRule()], [], state, e.payload).1;
            && HashStage(e, body, hash)
            && payload.Obj? && !HashStage(Rewritten(e, payload, blobMap, newSize), body, hash)
            && Touched([e], blobMap) == 0
  {
    var h := hash(body);
    var e := Event("e", MENTOR_REQUEST, Some(h), Obj(map[REQUEST_HASH := Str(h)]));
    HexRuleIsOk();
    assert HashStage(e, body, hash);
    assert Member(e.payload, REQUEST_HASH) == Some(Str(h));
    assert [HexRule()][0].find(h) != [];
    HashStageIff([HexRule()], [], state, e, blobMap, newSize, hash, body);
    assert [e][..0] == [];
  }

  lemma HexRuleIsOk()
    ensures Redactor.RulesOk([HexRule()]) && Redactor.AllLeaveMarks([HexRule()])
  {
    forall text ensures Redactor.SpansOk(HexRule().find(text), 0, text) {
      var spans := HexRule().find(text);
      if spans != [] {
        assert spans == [Redactor.Span(0, 0, |text|, |text|)];
        assert spans[1..] == [];
      }
    }
  }
}
