/** From the request to the row: the handler's message, the worker's parser and the protocol together. */
module EndToEnd {
  import opened Basics
  import A = Attempts
  import opened System
  import opened Guarantees
  import C = Codec

  /** What the worker makes of a message body. */
  function PayloadOf(body: string): A.Payload {
    match C.Parse(body)
    case Ok(m) => A.Job(m.videoId, m.outputBucketPath)
    case Err(e) => A.Malformed(e)
  }

  function TrimmedId(request: C.Message): string { C.TrimSpace(request.videoId) }

  function TrimmedPath(request: C.Message): string { C.TrimSpace(request.outputBucketPath) }

  /** What has been published by the end of a run, in order, after what was published before. */
  function Published(before: seq<A.Payload>, ls: seq<Label>): seq<A.Payload>
    decreases |ls|
  {
    if ls == [] then before else Published(before + PublishedBy(ls[0]), ls[1..])
  }

  function PublishedBy(l: Label): seq<A.Payload> { if l.Publish? then [l.payload] else [] }

  lemma StepPublishes(s: State, l: Label)
    requires Enabled(s, l)
    ensures Next(s, l).payloads == s.payloads + PublishedBy(l)
  {
  }

  lemma {:induction false} PayloadsArePublished(s: State, ls: seq<Label>, t: State)
    requires Runs(s, ls, t)
    ensures t.payloads == Published(s.payloads, ls)
    decreases |ls|
  {
    if ls != [] {
      StepPublishes(s, ls[0]);
      PayloadsArePublished(Next(s, ls[0]), ls[1..], t);
    }
  }

  /** If the handler has published `body` for a request (it then parses to the trimmed request), and the
      message has been acknowledged under an enabled processor, then there is a Completed row for
      exactly the request's video and prefix, and all that the encoder made of the video has been
      uploaded. If it has been dead-lettered, then an attempt on it has failed, and the row of that
      attempt, if it has one, is not Completed. */
  lemma RequestIsCarriedOut(
    width: nat, disk: A.Disk, ls: seq<Label>, t: State, m: nat,
    request: C.Message, body: string)
    requires Reached(width, true, disk, ls, t) && m < |Published([], ls)|
    requires C.Parse(body) == Ok(C.Trimmed(request)) && Published([], ls)[m] == PayloadOf(body)
    ensures m < |t.payloads| && t.payloads[m] == A.Job(TrimmedId(request), TrimmedPath(request))
    ensures m in t.d.broker.acked ==>
              var q := C.Trimmed(request);
              && m < |t.payloads| && Deserved(t, m, t.d.broker.acked[m])
              && exists id :: id in t.j.rows && t.j.rows[id] == A.Row(q.videoId, q.outputBucketPath, A.Completed, "")
    ensures m in t.d.broker.dead ==> Rejected(t, m, t.d.broker.dead[m])
  {
    SettlementSound(width, true, disk, ls, t);
    ReachedInv(width, true, disk, ls, t);
    PayloadsArePublished(Init(width, true, disk), ls, t);
    assert t.payloads == Published([], ls);
    if m in t.d.broker.acked {
      var a := t.d.broker.acked[m];
      assert Deserved(t, m, a);
      assert t.j.attempts[a].job.value in t.j.rows;
    }
  }
}
