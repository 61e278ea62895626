/** The queue of notifications that channels and sessions keep: a notification is launched in a
    goroutine if there is a subscriber, and cached until there is one otherwise. */
module Notifications {
  import opened Wrappers

  /** Starting a goroutine that runs the given subscriber on a notification. */
  datatype Launch<+N> = Launch(notifier: nat, notif: N)

  /** Launching cached notifications, first come first served. */
  function LaunchAll<N>(notifier: nat, notifs: seq<N>): (ls: seq<Launch<N>>)
    ensures |ls| == |notifs|
    ensures forall i :: 0 <= i < |ls| ==> ls[i] == Launch(notifier, notifs[i])
  {
    seq(|notifs|, i requires 0 <= i < |notifs| => Launch(notifier, notifs[i]))
  }

  /** What was launched, whoever it was launched for. */
  function Notifs<N>(ls: seq<Launch<N>>): (ns: seq<N>)
    ensures |ns| == |ls|
    ensures forall i :: 0 <= i < |ls| ==> ns[i] == ls[i].notif
  {
    seq(|ls|, i requires 0 <= i < |ls| => ls[i].notif)
  }

  /** Launched notifications followed by the cached ones are those made so far; while someone is
      subscribed nothing waits in the cache. */
  ghost predicate InOrder<N>(notifier: Option<nat>, cache: seq<N>, launched: seq<Launch<N>>, made: seq<N>) {
    && Notifs(launched) + cache == made
    && (notifier.Some? ==> cache == [])
  }

  lemma InOrderFlushed<N>(notifier: nat, cache: seq<N>, launched: seq<Launch<N>>, made: seq<N>)
    requires InOrder(None, cache, launched, made)
    ensures InOrder(Some(notifier), [], launched + LaunchAll(notifier, cache), made)
  {
    assert Notifs(launched + LaunchAll(notifier, cache)) == Notifs(launched) + cache;
  }
}
