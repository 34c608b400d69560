/**
 The per-call status log kept by `broadcastStatus`: each message is pushed at
 the back, and when the log grows past its capacity the oldest entry is
 shifted off the front.
 */
module StatusLog {

  /** Entries kept per call. */
  const Capacity: nat := 100

  /** One append: push `msg`, then drop the oldest entry if over capacity. */
  function Push<T>(log: seq<T>, msg: T): (r: seq<T>)
    ensures |log| <= Capacity ==> |r| <= Capacity
    ensures |r| > 0 && r[|r| - 1] == msg
    ensures |log| < Capacity ==> r == log + [msg]
    ensures |log| == Capacity ==> r == log[1..] + [msg]
  {
    var grown := log + [msg];
    if |grown| > Capacity then grown[1..] else grown
  }

  /** The last min(|s|, Capacity) elements of `s`, in order. */
  function Recent<T>(s: seq<T>): (r: seq<T>)
    ensures |r| == if |s| <= Capacity then |s| else Capacity
    ensures r == s[|s| - |r|..]
  {
    if |s| <= Capacity then s else s[|s| - Capacity..]
  }

  /** Several appends, oldest message first. */
  function PushAll<T>(log: seq<T>, msgs: seq<T>): seq<T>
    decreases |msgs|
  {
    if |msgs| == 0 then log else PushAll(Push(log, msgs[0]), msgs[1..])
  }

  /** The recent tail of a sequence only depends on a suffix that is long enough. */
  lemma RecentOfSuffix<T>(p: seq<T>, q: seq<T>)
    requires |p| == 0 || |q| >= Capacity
    ensures Recent(p + q) == Recent(q)
  {
    if |p| == 0 {
      assert p + q == q;
    } else {
      var x, y := Recent(p + q), Recent(q);
      forall i | 0 <= i < Capacity
        ensures x[i] == y[i]
      {
        assert x[i] == (p + q)[|p| + |q| - Capacity + i];
      }
    }
  }

  /** Keeping the recent tail of a prefix does not change the recent tail of the whole. */
  lemma RecentOfRecentPrefix<T>(a: seq<T>, b: seq<T>)
    ensures Recent(Recent(a) + b) == Recent(a + b)
  {
    var ra := Recent(a);
    var p := a[..|a| - |ra|];
    assert a == p + ra;
    assert a + b == p + (ra + b);
    RecentOfSuffix(p, ra + b);
  }

  /** One append to a log within capacity keeps the recent tail of the log and the message. */
  lemma PushIsRecent<T>(log: seq<T>, msg: T)
    requires |log| <= Capacity
    ensures Push(log, msg) == Recent(log + [msg])
  {
    if |log| == Capacity {
      assert (log + [msg])[1..] == log[1..] + [msg];
    }
  }

  lemma PeelFirst<T>(log: seq<T>, msgs: seq<T>)
    requires |msgs| > 0
    ensures (log + [msgs[0]]) + msgs[1..] == log + msgs
  {
    assert msgs == [msgs[0]] + msgs[1..];
  }

  /**
   A log that starts within capacity holds, after any number of appends,
   exactly the most recent Capacity messages of everything pushed, oldest first.
   */
  lemma {:induction false} PushAllKeepsRecent<T>(log: seq<T>, msgs: seq<T>)
    requires |log| <= Capacity
    ensures PushAll(log, msgs) == Recent(log + msgs)
    decreases |msgs|
  {
    if |msgs| == 0 {
      assert log + msgs == log;
    } else {
      var grown := log + [msgs[0]];
      PushIsRecent(log, msgs[0]);
      PushAllKeepsRecent(Recent(grown), msgs[1..]);
      RecentOfRecentPrefix(grown, msgs[1..]);
      PeelFirst(log, msgs);
    }
  }

  /** Pushing one more message after a run of pushes is one more push. */
  lemma {:induction false} PushAllSnoc<T>(log: seq<T>, msgs: seq<T>, msg: T)
    ensures PushAll(log, msgs + [msg]) == Push(PushAll(log, msgs), msg)
    decreases |msgs|
  {
    if |msgs| == 0 {
      assert msgs + [msg] == [msg];
      assert [msg][1..] == [];
    } else {
      assert (msgs + [msg])[0] == msgs[0];
      assert (msgs + [msg])[1..] == msgs[1..] + [msg];
      PushAllSnoc(Push(log, msgs[0]), msgs[1..], msg);
    }
  }

  /** From an empty log: after n pushes it is the last min(n, 100) messages, in push order. */
  lemma FreshLogKeepsLastHundred<T>(msgs: seq<T>)
    ensures PushAll<T>([], msgs) == Recent(msgs)
    ensures |PushAll<T>([], msgs)| == if |msgs| <= Capacity then |msgs| else Capacity
  {
    PushAllKeepsRecent<T>([], msgs);
    var empty: seq<T> := [];
    assert empty + msgs == msgs;
  }

  /** A full log that receives its 101st message loses exactly its oldest one. */
  lemma OverflowDropsOldest<T>(log: seq<T>, msg: T)
    requires |log| == Capacity
    ensures Push(log, msg) == log[1..] + [msg]
    ensures |Push(log, msg)| == Capacity
  {
  }
}
