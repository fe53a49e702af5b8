/**
 The replay log of one submission. log_step computes the next number from the rows its statement sees
 and then inserts; two writers can compute the same number, and the unique constraint turns one away.
 The stream endpoint follows the log by polling.
 */
module ReplayLog {
  import opened Prelude

  type WriterId = nat

  datatype Entry = Entry(number: nat, text: string)

  /**
   `committed` in the order of the commits; `pending` the inserts whose number is already computed;
   `terminal` whether the submission is in a terminal state.
   */
  datatype Log = Log(committed: seq<Entry>, pending: map<WriterId, Entry>, terminal: bool)

  datatype Step =
    | Prepare(w: WriterId, text: string)
    | Commit(w: WriterId)
    | Fail(w: WriterId)
    | Close
    | Reopen

  /** COALESCE(MAX(seq), 0) */
  function MaxNumber(entries: seq<Entry>): nat {
    if entries == [] then 0 else Max(entries[0].number, MaxNumber(entries[1..]))
  }

  predicate Taken(entries: seq<Entry>, number: nat) {
    exists i :: 0 <= i < |entries| && entries[i].number == number
  }

  predicate Enabled(log: Log, step: Step) {
    match step
    case Prepare(w, _) => w !in log.pending
    case Commit(w) => w in log.pending
    case Fail(w) => w in log.pending
    case Close => !log.terminal
    case Reopen => log.terminal
  }

  function Apply(log: Log, step: Step): Log
    requires Enabled(log, step)
  {
    match step
    case Prepare(w, text) => log.(pending := log.pending[w := Entry(MaxNumber(log.committed) + 1, text)])
    case Commit(w) =>
      var entry := log.pending[w];
      var committed := if Taken(log.committed, entry.number) then log.committed else log.committed + [entry];
      log.(committed := committed, pending := log.pending - {w})
    case Fail(w) => log.(pending := log.pending - {w})
    case Close => log.(terminal := true)
    case Reopen => log.(terminal := false)
  }

  /** The log after these steps of all writers together. */
  function After(steps: seq<Step>): Log {
    if steps == [] then Log([], map[], false)
    else
      var before := After(steps[..|steps| - 1]);
      if Enabled(before, steps[|steps| - 1]) then Apply(before, steps[|steps| - 1]) else before
  }

  predicate Legal(steps: seq<Step>) {
    steps == [] || (Legal(steps[..|steps| - 1]) && Enabled(After(steps[..|steps| - 1]), steps[|steps| - 1]))
  }

  /** The log at the moment before step i. */
  function At(steps: seq<Step>, i: nat): Log
    requires i <= |steps|
  {
    After(steps[..i])
  }

  lemma {:induction false} LegalAt(steps: seq<Step>, i: nat)
    requires Legal(steps) && i < |steps|
    ensures Enabled(At(steps, i), steps[i]) && At(steps, i + 1) == Apply(At(steps, i), steps[i])
  {
    var init := steps[..|steps| - 1];
    if i < |init| {
      LegalAt(init, i);
      assert init[..i] == steps[..i] && init[..i + 1] == steps[..i + 1];
    } else {
      assert steps[..i + 1] == steps && steps[..i + 1][..i] == steps[..i];
    }
  }

  lemma OneMore(steps: seq<Step>, step: Step)
    requires Legal(steps) && Enabled(After(steps), step)
    ensures Legal(steps + [step]) && After(steps + [step]) == Apply(After(steps), step)
  {
    assert (steps + [step])[..|steps|] == steps;
  }

  // ------------------------------------------------------------------ numbers

  /** The numbers are exactly 1, 2, ..., n in this order. */
  ghost predicate Consecutive(entries: seq<Entry>) {
    forall i :: 0 <= i < |entries| ==> entries[i].number == i + 1
  }

  /** A number computed from an older state of the log is free only if it is the next one. */
  ghost predicate Sane(log: Log) {
    Consecutive(log.committed) &&
    forall w :: w in log.pending ==> 1 <= log.pending[w].number <= |log.committed| + 1
  }

  lemma {:induction false} MaxIsLast(entries: seq<Entry>, n: nat)
    requires forall i :: 0 <= i < |entries| ==> entries[i].number == n + i + 1
    ensures MaxNumber(entries) == if entries == [] then 0 else n + |entries|
  {
    if entries != [] { MaxIsLast(entries[1..], n + 1); }
  }

  lemma TakenIff(entries: seq<Entry>, number: nat)
    requires Consecutive(entries) && number >= 1
    ensures Taken(entries, number) <==> number <= |entries|
  {
    if number <= |entries| { assert entries[number - 1].number == number; }
  }

  lemma SaneKept(log: Log, step: Step)
    requires Sane(log) && Enabled(log, step)
    ensures Sane(Apply(log, step)) && log.committed <= Apply(log, step).committed
  {
    MaxIsLast(log.committed, 0);
    if step.Commit? { TakenIff(log.committed, log.pending[step.w].number); }
  }

  /** For all interleavings of writers the committed numbers are at every moment 1..n in commit order. */
  lemma {:induction false} NumbersAreConsecutive(steps: seq<Step>, i: nat)
    requires Legal(steps) && i <= |steps|
    ensures Sane(At(steps, i))
  {
    if i > 0 {
      NumbersAreConsecutive(steps, i - 1);
      LegalAt(steps, i - 1);
      SaneKept(At(steps, i - 1), steps[i - 1]);
    }
  }

  /** The number computed for the next entry is one above the last, and free. */
  lemma NextIsFree(steps: seq<Step>)
    requires Legal(steps)
    ensures var entries := After(steps).committed;
            MaxNumber(entries) == |entries| && !Taken(entries, |entries| + 1)
  {
    assert steps[..|steps|] == steps;
    NumbersAreConsecutive(steps, |steps|);
    MaxIsLast(After(steps).committed, 0);
    TakenIff(After(steps).committed, |After(steps).committed| + 1);
  }

  /** Step i commits an entry. */
  predicate Lands(steps: seq<Step>, i: nat)
    requires i < |steps|
  {
    At(steps, i + 1).committed != At(steps, i).committed
  }

  /** The log only grows at its end, and grows exactly when a commit lands. */
  lemma {:induction false} GrowsIff(steps: seq<Step>, i: nat, j: nat)
    requires Legal(steps) && i <= j <= |steps|
    ensures At(steps, i).committed <= At(steps, j).committed
    ensures At(steps, i).committed == At(steps, j).committed <==> forall k :: i <= k < j ==> !Lands(steps, k)
    decreases j
  {
    if i < j {
      GrowsIff(steps, i, j - 1);
      NumbersAreConsecutive(steps, j - 1);
      LegalAt(steps, j - 1);
      SaneKept(At(steps, j - 1), steps[j - 1]);
      assert Lands(steps, j - 1) ==> |At(steps, j - 1).committed| < |At(steps, j).committed|;
    }
  }

  function Writer(step: Step): Option<WriterId> {
    match step
    case Prepare(w, _) => Some(w)
    case Commit(w) => Some(w)
    case Fail(w) => Some(w)
    case _ => None
  }

  /** The insert prepared at step i is the one committed at step j. */
  predicate Paired(steps: seq<Step>, w: WriterId, i: nat, j: nat) {
    && i < j < |steps| && steps[i].Prepare? && steps[i].w == w && steps[j] == Commit(w)
    && forall k :: i < k < j ==> Writer(steps[k]) != Some(w)
  }

  lemma {:induction false} PendingMeanwhile(steps: seq<Step>, w: WriterId, i: nat, j: nat, m: nat)
    requires Legal(steps) && Paired(steps, w, i, j) && i < m <= j
    ensures w in At(steps, m).pending
    ensures At(steps, m).pending[w] == Entry(|At(steps, i).committed| + 1, steps[i].text)
    decreases m
  {
    LegalAt(steps, m - 1);
    if m == i + 1 {
      NumbersAreConsecutive(steps, i);
      MaxIsLast(At(steps, i).committed, 0);
    } else {
      PendingMeanwhile(steps, w, i, j, m - 1);
    }
  }

  /**
   An insert is turned away if and only if some other commit landed between computing its number and
   committing it; otherwise it is appended.
   */
  lemma RefusedIffOvertaken(steps: seq<Step>, w: WriterId, i: nat, j: nat)
    requires Legal(steps) && Paired(steps, w, i, j)
    ensures !Lands(steps, j) <==> exists k :: i < k < j && Lands(steps, k)
    ensures Lands(steps, j) ==>
      At(steps, j + 1).committed == At(steps, i).committed + [Entry(|At(steps, i).committed| + 1, steps[i].text)]
  {
    PendingMeanwhile(steps, w, i, j, j);
    NumbersAreConsecutive(steps, j);
    LegalAt(steps, i);
    LegalAt(steps, j);
    GrowsIff(steps, i + 1, j);
    TakenIff(At(steps, j).committed, |At(steps, i).committed| + 1);
    assert At(steps, i + 1).committed == At(steps, i).committed;
  }

  /** The number computed in the statement can be lost: of two writers that overlap, only one commits. */
  lemma OverlappingWritersCollide(steps: seq<Step>, v: WriterId, w: WriterId, s: string, t: string)
    requires Legal(steps) && v != w && v !in After(steps).pending && w !in After(steps).pending
    ensures var longer := steps + [Prepare(v, s)] + [Prepare(w, t)] + [Commit(v)] + [Commit(w)];
            var entries := After(steps).committed;
            Legal(longer) && After(longer).committed == entries + [Entry(|entries| + 1, s)]
  {
    var entries := After(steps).committed;
    var a := steps + [Prepare(v, s)];
    var b := a + [Prepare(w, t)];
    var c := b + [Commit(v)];
    var d := c + [Commit(w)];
    NextIsFree(steps);
    OneMore(steps, Prepare(v, s));
    OneMore(a, Prepare(w, t));
    OneMore(b, Commit(v));
    assert After(c).committed == entries + [Entry(|entries| + 1, s)];
    assert After(c).committed[|entries|].number == |entries| + 1;
    OneMore(c, Commit(w));
  }

  // --------------------------------------------------------------------- tail

  /** One round of the stream: the steps listed in order of their numbers, then whether the row is terminal. */
  datatype Poll = Poll(steps: seq<Entry>, terminal: bool)

  /** Each listing shows the log at some later moment. */
  ghost predicate Growing(polls: seq<Poll>) {
    && (forall i :: 0 <= i < |polls| ==> Consecutive(polls[i].steps))
    && (forall i, j :: 0 <= i <= j < |polls| ==> polls[i].steps <= polls[j].steps)
  }

  /** How many rounds the stream makes: up to the first that sees a terminal row. */
  function Rounds(polls: seq<Poll>): (n: nat)
    ensures n <= |polls|
  {
    if polls == [] then 0 else if polls[0].terminal then 1 else 1 + Rounds(polls[1..])
  }

  /** No round but the last sees a terminal row, and the stream stops short only at one that does. */
  lemma {:induction false} RoundsAre(polls: seq<Poll>, n: nat)
    requires n <= |polls| && forall i :: 0 <= i < n - 1 ==> !polls[i].terminal
    requires if n > 0 && polls[n - 1].terminal then true else n == |polls|
    ensures Rounds(polls) == n
  {
    if n > 0 && !(n == 1 && polls[0].terminal) {
      assert !polls[0].terminal;
      RoundsAre(polls[1..], n - 1);
    }
  }

  /** The listing of the last round. */
  function Sent(polls: seq<Poll>): seq<Entry> {
    var n := Rounds(polls);
    if n == 0 then [] else polls[n - 1].steps
  }

  predicate Done(polls: seq<Poll>) {
    var n := Rounds(polls);
    n > 0 && polls[n - 1].terminal
  }

  /**
   The stream loop over the polls made so far: the steps sent to the client, in order, are the listing
   of the last poll, each exactly once. `done` follows the first poll that sees a terminal row, and
   whatever is committed between its two reads is not sent.
   */
  method Events(polls: seq<Poll>) returns (sent: seq<Entry>, done: bool)
    requires Growing(polls)
    ensures sent == Sent(polls) && (done <==> Done(polls))
  {
    sent, done := [], false;
    var lastSeq, p := 0, 0;
    while p < |polls|
      invariant 0 <= p <= |polls| && !done
      invariant sent == if p == 0 then [] else polls[p - 1].steps
      invariant lastSeq == |sent|
      invariant forall i :: 0 <= i < p ==> !polls[i].terminal
    {
      var steps := polls[p].steps;
      ghost var before := sent;
      assert p > 0 ==> polls[p - 1].steps <= polls[p].steps;
      assert before <= steps && Consecutive(steps);
      for k := 0 to |steps|
        invariant sent == if k <= |before| then before else steps[..k]
        invariant lastSeq == |sent|
      {
        assert steps[k].number == k + 1;
        if steps[k].number > lastSeq {
          lastSeq := steps[k].number;
          sent := sent + [steps[k]];
        }
      }
      assert steps[..|steps|] == steps;
      p := p + 1;
      if polls[p - 1].terminal {
        RoundsAre(polls, p);
        return sent, true;
      }
    }
    RoundsAre(polls, |polls|);
  }

  // ------------------------------------------------------------ log and tail

  /** The moments of the two reads of a round. */
  datatype Look = Look(listed: nat, checked: nat)

  /** The reads happen one after the other, while the writers go on. */
  ghost predicate InOrder(steps: seq<Step>, looks: seq<Look>) {
    && (forall i :: 0 <= i < |looks| ==> looks[i].listed <= looks[i].checked <= |steps|)
    && (forall i, j :: 0 <= i < j < |looks| ==> looks[i].checked <= looks[j].listed)
  }

  ghost function Polls(steps: seq<Step>, looks: seq<Look>): seq<Poll>
    requires InOrder(steps, looks)
  {
    seq(|looks|, i requires 0 <= i < |looks| =>
      Poll(At(steps, looks[i].listed).committed, At(steps, looks[i].checked).terminal))
  }

  /** What a stream reads from a log is growing, whatever the writers do between its reads. */
  lemma PollsGrow(steps: seq<Step>, looks: seq<Look>)
    requires Legal(steps) && InOrder(steps, looks)
    ensures Growing(Polls(steps, looks))
  {
    forall i | 0 <= i < |looks| ensures Consecutive(Polls(steps, looks)[i].steps) {
      NumbersAreConsecutive(steps, looks[i].listed);
    }
    forall i, j | 0 <= i <= j < |looks| ensures Polls(steps, looks)[i].steps <= Polls(steps, looks)[j].steps {
      GrowsIff(steps, looks[i].listed, looks[j].listed);
    }
  }

  /** The last moment at which the stream listed the steps. */
  ghost function LastListed(steps: seq<Step>, looks: seq<Look>): nat
    requires InOrder(steps, looks)
  {
    var n := Rounds(Polls(steps, looks));
    if n == 0 then 0 else looks[n - 1].listed
  }

  lemma SentIsListed(steps: seq<Step>, looks: seq<Look>)
    requires Legal(steps) && InOrder(steps, looks)
    ensures LastListed(steps, looks) <= |steps|
    ensures Sent(Polls(steps, looks)) == At(steps, LastListed(steps, looks)).committed
  {
    var polls := Polls(steps, looks);
    var n := Rounds(polls);
    if n == 0 {
      assert steps[..0] == [];
    } else {
      assert looks[n - 1].listed <= looks[n - 1].checked <= |steps|;
      assert polls[n - 1].steps == At(steps, looks[n - 1].listed).committed;
    }
  }

  /**
   What the stream has sent is, at every moment from its last listing on, a prefix of the log numbered
   1..n; it is the whole log exactly as long as no commit lands after that listing.
   */
  lemma StreamIsAPrefix(steps: seq<Step>, looks: seq<Look>, m: nat)
    requires Legal(steps) && InOrder(steps, looks) && LastListed(steps, looks) <= m <= |steps|
    ensures Growing(Polls(steps, looks))
    ensures var sent := Sent(Polls(steps, looks));
            && sent <= At(steps, m).committed && Consecutive(sent)
            && (sent == At(steps, m).committed <==> forall k :: LastListed(steps, looks) <= k < m ==> !Lands(steps, k))
  {
    PollsGrow(steps, looks);
    SentIsListed(steps, looks);
    var l := LastListed(steps, looks);
    GrowsIff(steps, l, m);
    NumbersAreConsecutive(steps, l);
  }

  /** A step is committed and the terminal state written. */
  function LastWords(steps: seq<Step>, w: WriterId, text: string): seq<Step> {
    steps + [Prepare(w, text)] + [Commit(w)] + [Close]
  }

  lemma LastWordsLand(steps: seq<Step>, w: WriterId, text: string)
    requires Legal(steps) && w !in After(steps).pending && !After(steps).terminal
    ensures var longer, entries := LastWords(steps, w, text), After(steps).committed;
            Legal(longer) && After(longer).terminal && After(longer).committed == entries + [Entry(|entries| + 1, text)]
  {
    var a := steps + [Prepare(w, text)];
    var b := a + [Commit(w)];
    NextIsFree(steps);
    OneMore(steps, Prepare(w, text));
    OneMore(a, Commit(w));
    OneMore(b, Close);
  }

  lemma OneRound(steps: seq<Step>, listed: nat)
    requires listed <= |steps| && After(steps).terminal
    ensures var looks := [Look(listed, |steps|)];
            InOrder(steps, looks) && Done(Polls(steps, looks)) && Sent(Polls(steps, looks)) == At(steps, listed).committed
  {
    var looks := [Look(listed, |steps|)];
    assert steps[..|steps|] == steps;
    assert Polls(steps, looks)[0] == Poll(At(steps, listed).committed, true);
    assert Rounds(Polls(steps, looks)) == 1;
  }

  /**
   It happens: after any run, a writer that commits a step between the two reads of a round, just before
   the terminal state is written, makes the stream end without that step.
   */
  lemma DoneMissesAStep(steps: seq<Step>, w: WriterId, text: string)
    requires Legal(steps) && w !in After(steps).pending && !After(steps).terminal
    ensures var longer := LastWords(steps, w, text);
            var looks := [Look(|steps|, |longer|)];
            && Legal(longer) && InOrder(longer, looks) && Done(Polls(longer, looks))
            && After(longer).committed == Sent(Polls(longer, looks)) + [Entry(|After(steps).committed| + 1, text)]
  {
    var longer := LastWords(steps, w, text);
    LastWordsLand(steps, w, text);
    OneRound(longer, |steps|);
    assert longer[..|steps|] == steps;
  }
}
