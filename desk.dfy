/**
 * The bot's module state, `ORDERS` and `ADMIN_ID`, and the handlers that
 * update it in place: `on_order`, `on_accept`, `on_done`, `on_noop`.
 */
module Desk {
  import opened Wrappers
  import opened PyStr
  import opened Orders
  import opened Lifecycle

  /** The value `ADMIN_ID` takes when its environment variable is not set. */
  const DefaultAdminId: UserId := 1145467601

  class OrderDesk {
    /** `ADMIN_ID`: the one principal allowed to press order buttons. */
    const adminId: UserId
    /** `ORDERS`. */
    var orders: Registry

    ghost predicate Valid()
      reads this
    {
      KeyedById(orders)
    }

    constructor (adminId: UserId)
      ensures Valid() && this.adminId == adminId && orders == map[]
    {
      this.adminId := adminId;
      orders := map[];
    }

    /**
     * `on_order` up to the message to the operator: builds the order from
     * the incoming text message, stores it under `id` (replacing whatever was
     * there, as the dict assignment does) and returns the receipt replied to
     * the submitter and the message posted to the operator.
     */
    method SubmitOrder(id: OrderId, from: User, text: string) returns (o: Order, receipt: string, post: Post)
      requires Valid()
      modifies this
      ensures Valid()
      ensures o == Order(id, from.id, DisplayName(from), Strip(text), New, None)
      ensures orders == old(orders)[id := o]
      ensures receipt == OrderReceivedText
      ensures post == Post(adminId, OperatorView(o, Some(KbNew(id))))
    {
      o := Order(id, from.id, DisplayName(from), Strip(text), New, None);
      orders := orders[o.orderId := o];
      receipt := OrderReceivedText;
      post := Post(adminId, OperatorView(o, Some(KbNew(o.orderId))));
    }

    /** The end of `on_order`: record the id of the message the operator got. */
    method AttachAdminMessage(id: OrderId, messageId: int)
      requires Valid() && id in orders
      modifies this
      ensures Valid()
      ensures orders == old(orders)[id := old(orders)[id].(adminMsgId := Some(messageId))]
    {
      var o := orders[id];
      orders := orders[id := o.(adminMsgId := Some(messageId))];
    }

    /** `on_accept`. */
    method OnAccept(actor: UserId, data: string) returns (outcome: Outcome, response: Response)
      requires Valid() && RouteOf(data) == ToAccept
      modifies this
      ensures Valid()
      ensures var s := AcceptStep(old(orders), adminId, actor, data);
        outcome == s.outcome && response == s.response && orders == s.orders
      // the stored orders being keyed by their ids, the "done" button of the
      // edited message names the order that was just accepted
      ensures outcome == Accepted ==>
        && response.edit.Some? && response.edit.value.keyboard.Some?
        && |Buttons(response.edit.value.keyboard.value)| == 2
        && AfterFirstColon(Buttons(response.edit.value.keyboard.value)[1].callbackData) == AfterFirstColon(data)
    {
      if actor != adminId {
        outcome := Unauthorized;
        response := Response(AnswerFor(outcome), None, None);
        return;
      }
      var id := AfterFirstColon(data);
      if id !in orders {
        outcome := NotFound;
        response := Response(AnswerFor(outcome), None, None);
        return;
      }
      var o := orders[id];
      if o.status == Done {
        outcome := Closed;
        response := Response(AnswerFor(outcome), None, None);
        return;
      }
      if o.status == InProgress {
        outcome := AlreadyInProgress;
        response := Response(AnswerFor(outcome), None, None);
        return;
      }
      o := o.(status := InProgress);
      orders := orders[id := o];
      outcome := Accepted;
      response := Response(AnswerFor(outcome),
                           Some(OperatorView(o, Some(KbInProgress(o.orderId)))),
                           Some(Notice(o.userId, AcceptedNotice)));
    }

    /** `on_done`. */
    method OnDone(actor: UserId, data: string) returns (outcome: Outcome, response: Response)
      requires Valid() && RouteOf(data) == ToDone
      modifies this
      ensures Valid()
      ensures var s := DoneStep(old(orders), adminId, actor, data);
        outcome == s.outcome && response == s.response && orders == s.orders
    {
      if actor != adminId {
        outcome := Unauthorized;
        response := Response(AnswerFor(outcome), None, None);
        return;
      }
      var id := AfterFirstColon(data);
      if id !in orders {
        outcome := NotFound;
        response := Response(AnswerFor(outcome), None, None);
        return;
      }
      var o := orders[id];
      if o.status == Done {
        outcome := AlreadyDone;
        response := Response(AnswerFor(outcome), None, None);
        return;
      }
      if o.status != InProgress {
        outcome := NotAccepted;
        response := Response(AnswerFor(outcome), None, None);
        return;
      }
      o := o.(status := Done);
      orders := orders[id := o];
      outcome := Completed;
      response := Response(AnswerFor(outcome),
                           Some(OperatorView(o, None)),
                           Some(Notice(o.userId, CompletedNotice)));
    }

    /** `on_noop`: the status indicator answers anyone and changes nothing. */
    method OnNoop() returns (response: Response)
      ensures response.answer == Some(Answer(IndicatorText, false))
      ensures response.edit == None && response.notice == None
    {
      response := Response(AnswerFor(Indicator), None, None);
    }

    /** A callback query, handed to the first handler whose filter matches its data. */
    method OnCallback(actor: UserId, data: string) returns (outcome: Outcome, response: Response)
      requires Valid()
      modifies this
      ensures Valid()
      ensures var s := PressStep(old(orders), adminId, actor, data);
        outcome == s.outcome && response == s.response && orders == s.orders
    {
      match RouteOf(data)
      case ToAccept =>
        outcome, response := OnAccept(actor, data);
      case ToDone =>
        outcome, response := OnDone(actor, data);
      case ToNoop =>
        outcome := Indicator;
        response := OnNoop();
      case Unrouted =>
        outcome := Ignored;
        response := Response(None, None, None);
    }
  }

  lemma AliceIsAlice()
    ensures DisplayName(User(42, "Alice", None, None)) == "Alice"
  {
    StripTrimmed("Alice");
  }

  /** A submitter's order taken from intake to completion through the buttons
      the operator is shown, with a stranger's press in between. */
  method Walkthrough(id: OrderId, messageId: int)
  {
    var desk := new OrderDesk(DefaultAdminId);
    var alice := User(42, "Alice", None, None);
    var o, receipt, post := desk.SubmitOrder(id, alice, "Need 100 business cards");
    AliceIsAlice();
    assert o.userName == "Alice";
    assert desk.orders == map[id := o] && o.status == New;
    desk.AttachAdminMessage(id, messageId);

    var accept := Buttons(post.view.keyboard.value)[0].callbackData;
    var outcome, response := desk.OnCallback(DefaultAdminId, accept);
    assert outcome == Accepted && desk.orders[id].status == InProgress;
    assert response.notice == Some(Notice(42, AcceptedNotice));

    var done := Buttons(response.edit.value.keyboard.value)[1].callbackData;
    outcome, response := desk.OnCallback(99, done);
    assert outcome == Unauthorized && desk.orders[id].status == InProgress;
    assert response.notice == None;

    outcome, response := desk.OnCallback(DefaultAdminId, done);
    assert outcome == Completed && desk.orders[id].status == Done;
    assert response.notice == Some(Notice(42, CompletedNotice));
    assert response.edit.value.keyboard == None;

    // a later submission that draws the same id replaces the closed order
    // with a new one: the only way a stored status goes back to `new`
    var bob := User(7, "Bob", None, None);
    var o', _, _ := desk.SubmitOrder(id, bob, "Flyers");
    assert desk.orders[id].status == New && desk.orders[id].userId == 7;
    assert desk.orders[id].adminMsgId == None;
  }
}
