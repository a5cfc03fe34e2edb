/**
 * Sequences of button presses: what any run of `on_accept`, `on_done` and
 * `on_noop` calls can and cannot do to the registry and to the submitters.
 */
module Traces {
  import opened Wrappers
  import opened Orders
  import opened Lifecycle

  /** A callback query: who pressed, and the button's callback data. */
  datatype Press = Press(actor: UserId, data: string)

  /** The registry after handling the presses one after another. */
  function Run(orders: Registry, adminId: UserId, ps: seq<Press>): Registry
    decreases |ps|
  {
    if ps == [] then orders
    else Run(PressStep(orders, adminId, ps[0].actor, ps[0].data).orders, adminId, ps[1..])
  }

  /** The submitter messages sent, over the presses, about order `k`. */
  function NoticesAbout(k: OrderId, orders: Registry, adminId: UserId, ps: seq<Press>): seq<Notice>
    decreases |ps|
  {
    if ps == [] then []
    else
      var s := PressStep(orders, adminId, ps[0].actor, ps[0].data);
      (if s.target == Some(k) && s.response.notice.Some? then [s.response.notice.value] else [])
      + NoticesAbout(k, s.orders, adminId, ps[1..])
  }

  /** Over any run, every order keeps its place and everything but its
      status, and its status never moves backwards. */
  lemma {:induction false} RunIsMonotone(orders: Registry, adminId: UserId, ps: seq<Press>)
    ensures Run(orders, adminId, ps).Keys == orders.Keys
    ensures forall k :: k in orders ==>
      && Run(orders, adminId, ps)[k] == orders[k].(status := Run(orders, adminId, ps)[k].status)
      && Rank(orders[k].status) <= Rank(Run(orders, adminId, ps)[k].status)
    decreases |ps|
  {
    if ps != [] {
      var s := PressStep(orders, adminId, ps[0].actor, ps[0].data);
      RunIsMonotone(s.orders, adminId, ps[1..]);
    }
  }

  /** Over any run, the submitter of order `k` is sent exactly the messages
      of the steps the order went through, once each and in order. */
  lemma {:induction false} RunNotices(k: OrderId, orders: Registry, adminId: UserId, ps: seq<Press>)
    requires k in orders
    ensures k in Run(orders, adminId, ps)
    ensures Rank(orders[k].status) <= Rank(Run(orders, adminId, ps)[k].status)
    ensures NoticesAbout(k, orders, adminId, ps)
      == NoticeScript(orders[k].userId)[Rank(orders[k].status)..Rank(Run(orders, adminId, ps)[k].status)]
    decreases |ps|
  {
    RunIsMonotone(orders, adminId, ps);
    if ps != [] {
      var s := PressStep(orders, adminId, ps[0].actor, ps[0].data);
      RunNotices(k, s.orders, adminId, ps[1..]);
      var final := Run(s.orders, adminId, ps[1..]);
      assert final == Run(orders, adminId, ps);
      var script := NoticeScript(orders[k].userId);
      var a, b, c := Rank(orders[k].status), Rank(s.orders[k].status), Rank(final[k].status);
      assert s.orders[k].userId == orders[k].userId;
      if s.target == Some(k) && s.response.notice.Some? {
        assert b == a + 1;
        assert script[a..c] == [script[a]] + script[b..c];
      } else {
        assert s.orders[k] == orders[k];
      }
    }
  }

  /** A closed order stays closed. */
  lemma DoneIsFinal(orders: Registry, adminId: UserId, ps: seq<Press>, k: OrderId)
    requires k in orders && orders[k].status == Done
    ensures k in Run(orders, adminId, ps) && Run(orders, adminId, ps)[k] == orders[k]
    ensures NoticesAbout(k, orders, adminId, ps) == []
  {
    RunIsMonotone(orders, adminId, ps);
    RunNotices(k, orders, adminId, ps);
  }

  /** Presses by anyone but the operator change nothing and notify nobody,
      whichever orders they name and whether or not those exist. */
  lemma {:induction false} StrangersChangeNothing(orders: Registry, adminId: UserId, ps: seq<Press>)
    requires forall i :: 0 <= i < |ps| ==> ps[i].actor != adminId
    ensures Run(orders, adminId, ps) == orders
    ensures forall k :: NoticesAbout(k, orders, adminId, ps) == []
    decreases |ps|
  {
    if ps != [] {
      StrangersChangeNothing(orders, adminId, ps[1..]);
    }
  }

  /** Two accept presses on a new order: one transition, one message. */
  lemma AcceptTwiceNotifiesOnce(orders: Registry, adminId: UserId, id: OrderId)
    requires id in orders && orders[id].status == New
    ensures var p := Press(adminId, "accept:" + id);
      && id in Run(orders, adminId, [p, p])
      && Run(orders, adminId, [p, p])[id].status == InProgress
      && NoticesAbout(id, orders, adminId, [p, p]) == [Notice(orders[id].userId, AcceptedNotice)]
  {
    var p := Press(adminId, "accept:" + id);
    PyStr.AfterFirstColonOf("accept", id);
    assert "accept" + ":" + id == p.data;
    var s := PressStep(orders, adminId, adminId, p.data);
    assert s.outcome == Accepted;
    var s' := PressStep(s.orders, adminId, adminId, p.data);
    assert s'.outcome == AlreadyInProgress;
    assert [p, p][1..] == [p];
    assert Run(orders, adminId, [p, p]) == Run(s.orders, adminId, [p]);
    assert Run(s.orders, adminId, [p]) == Run(s'.orders, adminId, []);
    RunNotices(id, orders, adminId, [p, p]);
  }
}
