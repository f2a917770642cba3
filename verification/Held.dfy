/**
 Publishes and subscriptions that the SDK holds back while an offer is awaited, and how it
 takes them up again (sdk/src/client.ts). An action that is taken up while an offer is
 awaited goes back to the end of the queue, from where the same loop takes it again.
 */
module Held {
  import opened Line

  datatype Action = PublishAction(track: MediaTrack) | SubscribeAction

  /** The queue, whether an offer is awaited, and what was sent. */
  datatype Actions = Actions(queue: seq<Action>, offerPending: bool, sent: seq<Action>)

  /** A publish that neither failed nor timed out while it was held back. */
  predicate LivePublish(a: Action, pending: set<MediaTrack>) {
    a.PublishAction? && a.track in pending
  }

  /** What is sent of `queue`: a publish that failed meanwhile is not. */
  function Live(queue: seq<Action>, pending: set<MediaTrack>): seq<Action> {
    if queue == [] then []
    else
      (if queue[0].SubscribeAction? || LivePublish(queue[0], pending) then [queue[0]]
        else []) + Live(queue[1..], pending)
  }

  /** One action of the loop: held back again, or sent; a publish that goes out awaits its offer. */
  function Turn(h: Actions, pending: set<MediaTrack>): Actions {
    if h.queue == [] then h
    else
      var (a, rest) := (h.queue[0], h.queue[1..]);
      if h.offerPending then h.(queue := rest + [a])
      else Actions(rest, LivePublish(a, pending), h.sent + Live([a], pending))
  }

  function Turns(h: Actions, pending: set<MediaTrack>, n: nat): Actions
    decreases n
  {
    if n == 0 then h else Turns(Turn(h, pending), pending, n - 1)
  }

  /** The loop ends. */
  ghost predicate Ends(h: Actions, pending: set<MediaTrack>) {
    exists n: nat :: Turns(h, pending, n).queue == []
  }

  /** Nothing is queued behind a publish that is going to go out. */
  predicate PublishesLast(queue: seq<Action>, pending: set<MediaTrack>) {
    forall i :: 0 <= i < |queue| - 1 ==> !LivePublish(queue[i], pending)
  }

  /** Once an offer is awaited, the queue only goes round. */
  lemma {:induction false} GoesRound(h: Actions, pending: set<MediaTrack>, n: nat)
    requires h.offerPending && h.queue != []
    ensures Turns(h, pending, n).queue != []
    decreases n
  {
    if n > 0 {
      GoesRound(Turn(h, pending), pending, n - 1);
    }
  }

  /** With nothing behind a publish, everything is taken in one turn each, and all that is live is sent in order. */
  lemma {:induction false} TakesAll(h: Actions, pending: set<MediaTrack>)
    requires PublishesLast(h.queue, pending) && (h.offerPending ==> h.queue == [])
    ensures
      var r := Turns(h, pending, |h.queue|);
      r.queue == [] && r.sent == h.sent + Live(h.queue, pending)
    decreases |h.queue|
  {
    if h.queue != [] {
      var next := Turn(h, pending);
      forall i | 0 <= i < |next.queue| - 1 ensures !LivePublish(next.queue[i], pending) {
        assert next.queue[i] == h.queue[i + 1];
      }
      TakesAll(next, pending);
      assert Live([h.queue[0]], pending) + Live(h.queue[1..], pending) == Live(h.queue, pending) by {
        assert Live([], pending) == [];
      }
    }
  }

  /** Otherwise it comes to a publish with something behind it, and from there on goes round. */
  lemma {:induction false} NeverEnds(h: Actions, pending: set<MediaTrack>, n: nat)
    requires !PublishesLast(h.queue, pending)
    ensures Turns(h, pending, n).queue != []
    decreases n
  {
    if h.offerPending {
      GoesRound(h, pending, n);
    } else if n > 0 {
      var next := Turn(h, pending);
      if next.offerPending {
        GoesRound(next, pending, n - 1);
      } else {
        var i :| 0 <= i < |h.queue| - 1 && LivePublish(h.queue[i], pending);
        assert i > 0 && next.queue[i - 1] == h.queue[i];
        NeverEnds(next, pending, n - 1);
      }
    }
  }

  /**
   The loop ends if and only if nothing is queued behind a live publish. Two publishes held
   back behind a third, for one, make it go round for ever.
   */
  lemma EndsExactly(queue: seq<Action>, pending: set<MediaTrack>, sent: seq<Action>)
    ensures Ends(Actions(queue, false, sent), pending) <==> PublishesLast(queue, pending)
  {
    var h := Actions(queue, false, sent);
    if PublishesLast(queue, pending) {
      TakesAll(h, pending);
    } else {
      forall n: nat ensures Turns(h, pending, n).queue != [] {
        NeverEnds(h, pending, n);
      }
    }
  }

  /** Two publishes held back, the first of them still wanted. */
  lemma TwoPublishesNeverEnd(cam: MediaTrack, screen: MediaTrack, pending: set<MediaTrack>)
    requires cam in pending
    ensures !Ends(Actions([PublishAction(cam), PublishAction(screen)], false, []), pending)
  {
    EndsExactly([PublishAction(cam), PublishAction(screen)], pending, []);
    assert LivePublish([PublishAction(cam), PublishAction(screen)][0], pending);
  }
}
