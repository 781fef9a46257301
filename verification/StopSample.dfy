/** Stopping a looping sample (samples.c:259-292). */
module StopSample {
  import opened Formats
  import opened Players
  import opened PlayerReads
  import opened PlayerRuns
  import opened MixRound

  predicate Plays(p: Player, id: int)
    reads p
  {
    p.format.mode == SAMPLE && p.sourceId == id
  }

  /** `stop_sample`: only the first player of the sample is affected. */
  method StopFirst(ps: seq<Player>, id: int) returns (i: nat)
    requires AllValid(ps) && Distinct(ps)
    modifies ps
    ensures i <= |ps| && AllValid(ps)
    ensures forall k :: 0 <= k < i ==> !(old(ps[k].format.mode) == SAMPLE && ps[k].sourceId == id)
    ensures if i == |ps| then States(ps) == old(States(ps))
            else old(ps[i].format.mode) == SAMPLE && ps[i].sourceId == id
                 && States(ps) == old(States(ps))[i := Stopped(old(States(ps))[i])]
  {
    i := 0;
    while i < |ps|
      invariant 0 <= i <= |ps|
      invariant forall k :: 0 <= k < i ==> !Plays(ps[k], id)
    {
      if Plays(ps[i], id) {
        ghost var sts := States(ps);
        ps[i].format := ps[i].format.(func := STOP);
        assert ps[i].State() == Stopped(sts[i]);
        forall k | 0 <= k < |ps| && k != i
          ensures ps[k].State() == sts[k] && ps[k].Valid()
        {
          assert ps[k] != ps[i];
        }
        return;
      }
      i := i + 1;
    }
  }

  /** From any player on, however it is read and mixed afterwards, a stopped
      looping player ends: once its sample is used up every read closes it. */
  lemma StoppedCloses(st: PlayerState, steps: seq<Step>, feed: Feed, rate: int)
    requires Aligned(st) && st.source.format.mode == SAMPLE && rate > 0
    requires Appended(Stopped(st), steps, rate) == |st.sample.bytes| - st.lastPos
    ensures var r := Run(Stopped(st), steps, rate);
            r.lastPos == |r.sample.bytes| && r.Room() >= 0 && Read(r, feed) == Outcome(-1, r)
  {
    hide Read, Run, Appended;
    StoppedAppends(st, steps, rate);
    AtEndCloses(Run(Stopped(st), steps, rate), feed);
  }
}
