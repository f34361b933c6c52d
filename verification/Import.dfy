/**
  Sending results to the server (agent_import.go): assets in chunks, findings in one request, every
  request under the retrier, and a failed request never stopping the ones after it.
 */
module Import {
  import opened Retry

  const MAX_BATCH_SIZE: nat := 500

  /** A converted record; conversion is element by element and keeps what identifies the record. */
  datatype Payload = DnsRecord(id: nat) | ServiceRecord(id: nat) | WebRecord(id: nat) | CodeRecord(finding: SASTFinding)

  datatype SASTFinding = SASTFinding(id: nat, commitSha: string)

  datatype Result = Result(domains: seq<nat>, services: seq<nat>, webFindings: seq<nat>, sastFindings: seq<SASTFinding>)

  /** One request under the retrier: what it carried and how it went. */
  datatype Push = Push(items: seq<Payload>, run: DoRun)

  function ConvertDomains(xs: seq<nat>): seq<Payload> {
    seq(|xs|, i requires 0 <= i < |xs| => DnsRecord(xs[i]))
  }

  function ConvertServices(xs: seq<nat>): seq<Payload> {
    seq(|xs|, i requires 0 <= i < |xs| => ServiceRecord(xs[i]))
  }

  function ConvertWebFindings(xs: seq<nat>): seq<Payload> {
    seq(|xs|, i requires 0 <= i < |xs| => WebRecord(xs[i]))
  }

  function ConvertSASTFindings(xs: seq<SASTFinding>): seq<Payload> {
    seq(|xs|, i requires 0 <= i < |xs| => CodeRecord(xs[i]))
  }

  // ---- chunks ----

  function Chunks(xs: seq<Payload>): seq<seq<Payload>> {
    if xs == [] then []
    else if |xs| <= MAX_BATCH_SIZE then [xs]
    else [xs[..MAX_BATCH_SIZE]] + Chunks(xs[MAX_BATCH_SIZE..])
  }

  function Concat(cs: seq<seq<Payload>>): seq<Payload> {
    if cs == [] then [] else cs[0] + Concat(cs[1..])
  }

  /**
    Chunks are non-empty, at most 500 long and all full but the last, ceil(n/500) in number, and in
    order they are the input.
   */
  lemma {:induction false} ChunksPartition(xs: seq<Payload>)
    ensures Concat(Chunks(xs)) == xs
    ensures |Chunks(xs)| == (|xs| + 499) / 500
    ensures forall k | 0 <= k < |Chunks(xs)| :: 1 <= |Chunks(xs)[k]| <= 500
    ensures forall k | 0 <= k < |Chunks(xs)| - 1 :: |Chunks(xs)[k]| == 500
  {
    if |xs| > MAX_BATCH_SIZE {
      ChunksPartition(xs[MAX_BATCH_SIZE..]);
      assert xs == xs[..MAX_BATCH_SIZE] + xs[MAX_BATCH_SIZE..];
      assert Chunks(xs)[1..] == Chunks(xs[MAX_BATCH_SIZE..]);
    }
  }

  // ---- pushing ----

  function Items(pushes: seq<Push>): seq<seq<Payload>> {
    seq(|pushes|, k requires 0 <= k < |pushes| => pushes[k].items)
  }

  /** Every request is one Do of this policy, the k-th one meeting envs(first + k). */
  ghost predicate UnderRetry(p: RetryPolicy, pushes: seq<Push>, envs: nat -> Env, first: nat) {
    forall k | 0 <= k < |pushes| :: IsDo(p, envs(first + k), pushes[k].run)
  }

  lemma UnderRetryAppend(p: RetryPolicy, a: seq<Push>, b: seq<Push>, envs: nat -> Env, first: nat)
    requires UnderRetry(p, a, envs, first) && UnderRetry(p, b, envs, first + |a|)
    ensures UnderRetry(p, a + b, envs, first)
  {
    forall k | 0 <= k < |a + b| ensures IsDo(p, envs(first + k), (a + b)[k].run) {
      if k >= |a| {
        assert IsDo(p, envs(first + |a| + (k - |a|)), b[k - |a|].run);
      } else {
        assert IsDo(p, envs(first + k), a[k].run);
      }
    }
  }

  lemma ItemsAppend(a: seq<Push>, b: seq<Push>)
    ensures Items(a + b) == Items(a) + Items(b)
  {}

  method PushOne(r: Retrier, items: seq<Payload>, envs: nat -> Env, first: nat) returns (pushes: seq<Push>)
    requires r.policy.maxAttempts >= 1
    ensures Items(pushes) == [items] && UnderRetry(r.policy, pushes, envs, first)
  {
    var run, last := r.Do(envs(first));
    pushes := [Push(items, run)];
    assert EndsAt(r.policy, envs(first + 0), last, pushes[0].run);
  }

  /** importDomains and importServices, after conversion. */
  method ImportAssets(r: Retrier, items: seq<Payload>, envs: nat -> Env, first: nat) returns (pushes: seq<Push>)
    requires r.policy.maxAttempts >= 1
    ensures Items(pushes) == Chunks(items) && UnderRetry(r.policy, pushes, envs, first)
  {
    pushes := [];
    var i := 0;
    while i < |items|
      invariant 0 <= i && (i <= |items| || Chunks(items) == Items(pushes))
      invariant i <= |items| ==> Chunks(items) == Items(pushes) + Chunks(items[i..])
      invariant UnderRetry(r.policy, pushes, envs, first)
    {
      var end := if i + MAX_BATCH_SIZE < |items| then i + MAX_BATCH_SIZE else |items|;
      var chunk := items[i..end];
      var one := PushOne(r, chunk, envs, first + |pushes|);
      ItemsAppend(pushes, one);
      UnderRetryAppend(r.policy, pushes, one, envs, first);
      if i + MAX_BATCH_SIZE < |items| {
        assert items[i..][MAX_BATCH_SIZE..] == items[i + MAX_BATCH_SIZE..];
        assert items[i..][..MAX_BATCH_SIZE] == chunk;
      } else {
        assert items[i..] == chunk;
      }
      pushes := pushes + one;
      i := i + MAX_BATCH_SIZE;
    }
  }

  function Stamp(f: SASTFinding, headSHA: string): SASTFinding {
    if f.commitSha == "" then f.(commitSha := headSHA) else f
  }

  /** An empty head SHA stamps nothing: the loop is skipped. */
  function StampAll(xs: seq<SASTFinding>, headSHA: string): seq<SASTFinding> {
    if headSHA == "" then xs else seq(|xs|, i requires 0 <= i < |xs| => Stamp(xs[i], headSHA))
  }

  /** Lines 22-28: fill in missing commit SHAs in place. */
  method StampCommits(findings: array<SASTFinding>, headSHA: string)
    modifies findings
    ensures findings[..] == StampAll(old(findings[..]), headSHA)
  {
    if headSHA != "" {
      for i := 0 to findings.Length
        invariant forall j | 0 <= j < i :: findings[j] == Stamp(old(findings[j]), headSHA)
        invariant forall j | i <= j < findings.Length :: findings[j] == old(findings[j])
      {
        if findings[i].commitSha == "" {
          findings[i] := findings[i].(commitSha := headSHA);
        }
      }
    }
  }

  function Single(items: seq<Payload>): seq<seq<Payload>> {
    if items == [] then [] else [items]
  }

  /** The requests a result calls for, in order. */
  function Requests(res: Result, headSHA: string): seq<seq<Payload>> {
    Chunks(ConvertDomains(res.domains)) + Chunks(ConvertServices(res.services))
    + Single(ConvertWebFindings(res.webFindings)) + Single(ConvertSASTFindings(StampAll(res.sastFindings, headSHA)))
  }

  /** importWebFindings: one request, or none for no findings. */
  method ImportFindings(r: Retrier, items: seq<Payload>, envs: nat -> Env, first: nat) returns (pushes: seq<Push>)
    requires r.policy.maxAttempts >= 1
    ensures Items(pushes) == Single(items) && UnderRetry(r.policy, pushes, envs, first)
  {
    pushes := [];
    if |items| > 0 {
      pushes := PushOne(r, items, envs, first);
    }
  }

  /** Stamps and sends a copy of the findings. */
  method ImportSASTFindings(r: Retrier, sast: seq<SASTFinding>, headSHA: string, envs: nat -> Env, first: nat)
    returns (pushes: seq<Push>)
    requires r.policy.maxAttempts >= 1
    ensures Items(pushes) == Single(ConvertSASTFindings(StampAll(sast, headSHA)))
    ensures UnderRetry(r.policy, pushes, envs, first)
  {
    var findings := new SASTFinding[|sast|](i requires 0 <= i < |sast| => sast[i]);
    assert findings[..] == sast;
    StampCommits(findings, headSHA);
    pushes := ImportFindings(r, ConvertSASTFindings(findings[..]), envs, first);
  }

  lemma PushesAppend(p: RetryPolicy, a: seq<Push>, b: seq<Push>, x: seq<seq<Payload>>, envs: nat -> Env, first: nat)
    requires Items(a) == x && UnderRetry(p, a, envs, first) && UnderRetry(p, b, envs, first + |a|)
    ensures Items(a + b) == x + Items(b) && UnderRetry(p, a + b, envs, first)
  {
    ItemsAppend(a, b);
    UnderRetryAppend(p, a, b, envs, first);
  }

  /** importResult.  The findings are stamped in a copy: the caller's result is not modified. */
  method ImportResult(r: Retrier, res: Result, headSHA: string, envs: nat -> Env, first: nat)
      returns (pushes: seq<Push>)
    requires r.policy.maxAttempts >= 1
    ensures Items(pushes) == Requests(res, headSHA) && UnderRetry(r.policy, pushes, envs, first)
  {
    hide Items, UnderRetry, Chunks, Single, ConvertDomains, ConvertServices, ConvertWebFindings,
         ConvertSASTFindings, StampAll;
    ghost var d, s := Chunks(ConvertDomains(res.domains)), Chunks(ConvertServices(res.services));
    ghost var w := Single(ConvertWebFindings(res.webFindings));
    pushes := ImportAssets(r, ConvertDomains(res.domains), envs, first);
    var more := ImportAssets(r, ConvertServices(res.services), envs, first + |pushes|);
    PushesAppend(r.policy, pushes, more, d, envs, first);
    pushes := pushes + more;
    more := ImportFindings(r, ConvertWebFindings(res.webFindings), envs, first + |pushes|);
    PushesAppend(r.policy, pushes, more, d + s, envs, first);
    pushes := pushes + more;
    more := ImportSASTFindings(r, res.sastFindings, headSHA, envs, first + |pushes|);
    PushesAppend(r.policy, pushes, more, d + s + w, envs, first);
    pushes := pushes + more;
  }

  // ---- what the server gets ----

  function AllRecords(res: Result, headSHA: string): seq<Payload> {
    ConvertDomains(res.domains) + ConvertServices(res.services)
    + ConvertWebFindings(res.webFindings) + ConvertSASTFindings(StampAll(res.sastFindings, headSHA))
  }

  lemma {:induction false} ConcatAppend(a: seq<seq<Payload>>, b: seq<seq<Payload>>)
    ensures Concat(a + b) == Concat(a) + Concat(b)
  {
    if a == [] {
      assert a + b == b;
    } else {
      assert (a + b)[1..] == a[1..] + b;
      ConcatAppend(a[1..], b);
    }
  }

  /** The requests carry every record of the result exactly once, in order, whatever becomes of any of them. */
  lemma EveryRecordIsRequested(res: Result, headSHA: string)
    ensures Concat(Requests(res, headSHA)) == AllRecords(res, headSHA)
    ensures forall k | 0 <= k < |Requests(res, headSHA)| :: Requests(res, headSHA)[k] != []
  {
    var d, s := ConvertDomains(res.domains), ConvertServices(res.services);
    var w, c := ConvertWebFindings(res.webFindings), ConvertSASTFindings(StampAll(res.sastFindings, headSHA));
    ChunksPartition(d);
    ChunksPartition(s);
    ConcatAppend(Chunks(d), Chunks(s));
    ConcatAppend(Chunks(d) + Chunks(s), Single(w));
    ConcatAppend(Chunks(d) + Chunks(s) + Single(w), Single(c));
    SingleConcat(w);
    SingleConcat(c);
  }

  /**
    Record by record: domains, services, web findings and code findings, in that order, each under its
    own kind; a code finding that has a commit keeps it, and one without gets the head SHA.
   */
  lemma RecordsSpelledOut(res: Result, headSHA: string)
    ensures var all := Concat(Requests(res, headSHA));
            var (d, s, w, c) := (|res.domains|, |res.services|, |res.webFindings|, |res.sastFindings|);
            && |all| == d + s + w + c
            && (forall i | 0 <= i < d :: all[i] == DnsRecord(res.domains[i]))
            && (forall i | 0 <= i < s :: all[d + i] == ServiceRecord(res.services[i]))
            && (forall i | 0 <= i < w :: all[d + s + i] == WebRecord(res.webFindings[i]))
            && (forall i | 0 <= i < c ::
                  all[d + s + w + i] == var f := res.sastFindings[i];
                                        CodeRecord(SASTFinding(f.id, if f.commitSha != "" then f.commitSha
                                            else headSHA)))
  {
    EveryRecordIsRequested(res, headSHA);
    hide Concat, Requests, Chunks;
  }

  lemma SingleConcat(xs: seq<Payload>)
    ensures Concat(Single(xs)) == xs
  {
    if xs != [] {
      assert [xs][1..] == [];
    }
  }

  /** Records of the requests that did, or did not, succeed. */
  function Delivered(pushes: seq<Push>, ok: bool): seq<Payload> {
    if pushes == [] then []
    else (if pushes[0].run.result.Nil? == ok then pushes[0].items else []) + Delivered(pushes[1..], ok)
  }

  lemma Recount(head: seq<Payload>, x: seq<Payload>, y: seq<Payload>, all: seq<Payload>)
    requires multiset(x) + multiset(y) == multiset(all)
    ensures multiset(head + x) + multiset(y) == multiset(head + all)
  {}

  lemma DeliveredFirst(pushes: seq<Push>)
    requires pushes != []
    ensures Concat(Items(pushes)) == pushes[0].items + Concat(Items(pushes[1..]))
    ensures var ok := pushes[0].run.result.Nil?;
            && Delivered(pushes, ok) == pushes[0].items + Delivered(pushes[1..], ok)
            && Delivered(pushes, !ok) == Delivered(pushes[1..], !ok)
  {
    assert Items(pushes)[1..] == Items(pushes[1..]);
  }

  lemma {:induction false} DeliveredOrNot(pushes: seq<Push>)
    ensures multiset(Delivered(pushes, true)) + multiset(Delivered(pushes, false)) == multiset(Concat(Items(pushes)))
  {
    if pushes != [] {
      hide Concat, Items, Delivered;
      var head, rest := pushes[0].items, pushes[1..];
      DeliveredOrNot(rest);
      DeliveredFirst(pushes);
      if pushes[0].run.result.Nil? {
        Recount(head, Delivered(rest, true), Delivered(rest, false), Concat(Items(rest)));
      } else {
        Recount(head, Delivered(rest, false), Delivered(rest, true), Concat(Items(rest)));
      }
    }
  }

  /**
    Conservation: the records the server acknowledged and the records of the failed requests are
    together exactly the records of the result.  A failed request loses its own records and no others.
   */
  lemma NothingElseIsLost(res: Result, headSHA: string, pushes: seq<Push>)
    requires Items(pushes) == Requests(res, headSHA)
    ensures multiset(Delivered(pushes, true)) + multiset(Delivered(pushes, false)) == multiset(AllRecords(res, headSHA))
  {
    EveryRecordIsRequested(res, headSHA);
    DeliveredOrNot(pushes);
  }

  function Calls(pushes: seq<Push>): nat {
    if pushes == [] then 0 else pushes[0].run.calls + Calls(pushes[1..])
  }

  lemma {:induction false} CallsBounded(pushes: seq<Push>, bound: nat)
    requires forall k | 0 <= k < |pushes| :: pushes[k].run.calls <= bound
    ensures Calls(pushes) <= |pushes| * bound
  {
    if pushes != [] {
      CallsBounded(pushes[1..], bound);
      assert |pushes| * bound == bound + |pushes[1..]| * bound;
    }
  }

  function CeilDiv(n: nat): nat {
    (n + 499) / 500
  }

  lemma DoCalls(p: RetryPolicy, env: Env, run: DoRun)
    requires IsDo(p, env, run)
    ensures run.calls <= p.maxAttempts
  {
    var last: nat :| EndsAt(p, env, last, run);
    DoOutcome(p, env, last, run);
  }

  /** How many requests a result makes. */
  lemma RequestCount(res: Result, headSHA: string)
    ensures |Requests(res, headSHA)| ==
            CeilDiv(|res.domains|) + CeilDiv(|res.services|)
            + (if res.webFindings == [] then 0 else 1) + (if res.sastFindings == [] then 0 else 1)
  {
    ChunksPartition(ConvertDomains(res.domains));
    ChunksPartition(ConvertServices(res.services));
    hide Chunks;
  }

  /** How many calls the requests can take between them: MaxAttempts each. */
  lemma RequestsAndCalls(p: RetryPolicy, res: Result, headSHA: string, pushes: seq<Push>, envs: nat -> Env, first: nat)
    requires p.maxAttempts >= 1 && Items(pushes) == Requests(res, headSHA) && UnderRetry(p, pushes, envs, first)
    ensures |pushes| == |Requests(res, headSHA)| && Calls(pushes) <= |pushes| * p.maxAttempts
  {
    assert |pushes| == |Items(pushes)|;
    forall k | 0 <= k < |pushes| ensures pushes[k].run.calls <= p.maxAttempts {
      DoCalls(p, envs(first + k), pushes[k].run);
    }
    CallsBounded(pushes, p.maxAttempts);
  }

  /** The transport client wraps every error it returns. */
  ghost predicate FromClient(env: Env) {
    forall j :: env.fn(j).Ok? || env.fn(j).err.Wrapped?
  }

  /** With the real client no request is ever repeated, whatever the retry policy: one call per request at most. */
  lemma ClientRequestsAreNotRetried(p: RetryPolicy, pushes: seq<Push>, envs: nat -> Env, first: nat)
    requires UnderRetry(p, pushes, envs, first)
    requires forall k :: FromClient(envs(k))
    ensures forall k | 0 <= k < |pushes| :: pushes[k].run.calls <= 1 && pushes[k].run.waits == []
    ensures Calls(pushes) <= |pushes|
  {
    forall k | 0 <= k < |pushes| ensures pushes[k].run.calls <= 1 && pushes[k].run.waits == [] {
      assert FromClient(envs(first + k));
      assert IsDo(p, envs(first + k), pushes[k].run);
      var last: nat :| EndsAt(p, envs(first + k), last, pushes[k].run);
      WrappedErrorsAreNeverRetried(p, envs(first + k), last, pushes[k].run);
    }
    CallsBounded(pushes, 1);
  }
}
