/**
 * The decision logic of the callback handlers `on_accept`, `on_done` and
 * `on_noop`, as pure functions from the registry before a button press to
 * the outcome, the registry after it and the side-effect intents the
 * transport is asked to carry out.
 */
module Lifecycle {
  import opened Wrappers
  import opened PyStr
  import opened Orders

  /** The contents of `ORDERS`. */
  type Registry = map<OrderId, Order>

  /** Every order is stored under its own id. */
  ghost predicate KeyedById(orders: Registry)
  {
    forall k :: k in orders ==> orders[k].orderId == k
  }

  /** `call.answer(text, show_alert=...)`: a private reply to the presser. */
  datatype Answer = Answer(text: string, showAlert: bool)

  /** `bot.send_message(chat_id, text)`. */
  datatype Notice = Notice(chatId: UserId, text: string)

  /** A message to the operator showing `AdminOrderText(order)` with the given
      inline keyboard (`None`: no keyboard at all). */
  datatype OperatorView = OperatorView(order: Order, keyboard: Option<Keyboard>)
  {
    function Text(): string { AdminOrderText(order) }
  }

  /** `bot.send_message(chat_id, admin_order_text(o), reply_markup=...)`. */
  datatype Post = Post(chatId: UserId, view: OperatorView)

  /** What a press asks the transport to do: answer the presser, edit the
      operator message the button sits on, notify the submitter. */
  datatype Response = Response(answer: Option<Answer>, edit: Option<OperatorView>, notice: Option<Notice>)

  datatype Outcome =
    | Unauthorized        // the presser is not the operator
    | NotFound            // no order under the id in the callback data
    | Closed              // accept pressed on a finished order
    | AlreadyInProgress   // accept pressed again: acknowledged, nothing happens
    | AlreadyDone         // done pressed again: acknowledged, nothing happens
    | NotAccepted         // done pressed before accept
    | Accepted            // new -> in_progress
    | Completed           // in_progress -> done
    | Indicator           // the status indicator button
    | Ignored             // callback data no handler's filter matches

  /** One button press: what was decided, which order it was about (when the
      callback data was read at all), the registry afterwards, the intents. */
  datatype Step = Step(outcome: Outcome, target: Option<OrderId>, orders: Registry, response: Response)

  const OrderReceivedText := "Спасибо! 🙌 Ваш заказ отправлен администратору.\nСообщу, когда его примут в работу. 📨"
  const OperatorOnlyText := "Эта кнопка доступна только администратору."
  const NotFoundText := "Этот заказ не найден или устарел."
  const ClosedText := "Заказ уже закрыт."
  const AlreadyInProgressText := "Уже в работе."
  const AcceptedText := "Заказ принят в работу."
  const AlreadyDoneText := "Уже закрыт."
  const NotAcceptedText := "Сначала примите заказ в работу."
  const CompletedText := "Заказ закрыт. Готово! ✅"
  const IndicatorText := "Это индикатор статуса."
  const AcceptedNotice := "Ваш заказ принят в работу ✅\nМы приступили к выполнению!"
  const CompletedNotice := "Ваш заказ выполнен 🎉 Спасибо за обращение!"

  /** Outcomes that refuse the press and are shown as an alert. */
  predicate IsRejection(o: Outcome)
  {
    o == Unauthorized || o == NotFound || o == Closed || o == NotAccepted
  }

  /** Outcomes that change the registry. */
  predicate IsTransition(o: Outcome)
  {
    o == Accepted || o == Completed
  }

  /** The reply each outcome gives the presser: an alert exactly for the
      rejections, a plain notice for acknowledgements and transitions. */
  function AnswerFor(o: Outcome): (r: Option<Answer>)
    ensures r.None? <==> o == Ignored
    ensures r.Some? ==> (r.value.showAlert <==> IsRejection(o))
  {
    match o
    case Unauthorized => Some(Answer(OperatorOnlyText, true))
    case NotFound => Some(Answer(NotFoundText, true))
    case Closed => Some(Answer(ClosedText, true))
    case AlreadyInProgress => Some(Answer(AlreadyInProgressText, false))
    case AlreadyDone => Some(Answer(AlreadyDoneText, false))
    case NotAccepted => Some(Answer(NotAcceptedText, true))
    case Accepted => Some(Answer(AcceptedText, false))
    case Completed => Some(Answer(CompletedText, false))
    case Indicator => Some(Answer(IndicatorText, false))
    case Ignored => None
  }

  /** A press that changes nothing and only answers the presser. */
  function AnswerOnly(outcome: Outcome, target: Option<OrderId>, orders: Registry): Step
  {
    Step(outcome, target, orders, Response(AnswerFor(outcome), None, None))
  }

  /** The messages a submitter is sent over an order's whole life, in order:
      the i-th is sent when the order leaves the status of rank i. */
  function NoticeScript(userId: UserId): seq<Notice>
  {
    [Notice(userId, AcceptedNotice), Notice(userId, CompletedNotice)]
  }

  /** One order's status moving one step forward, everything else kept. */
  predicate Advanced(before: Order, after: Order)
  {
    after == before.(status := after.status) && Rank(after.status) == Rank(before.status) + 1
  }

  /** `on_accept`. */
  function AcceptStep(orders: Registry, adminId: UserId, actor: UserId, data: string): (s: Step)
    requires RouteOf(data) == ToAccept
    ensures s.response.answer == AnswerFor(s.outcome)
    // the identity check comes first: a stranger learns nothing and changes nothing
    ensures actor != adminId <==> s.outcome == Unauthorized
    ensures actor != adminId ==> s == AnswerOnly(Unauthorized, None, orders)
    ensures actor == adminId ==> s.target == Some(AfterFirstColon(data))
    ensures var id := AfterFirstColon(data);
      && (s.outcome == NotFound <==> actor == adminId && id !in orders)
      && (s.outcome == Closed <==> actor == adminId && id in orders && orders[id].status == Done)
      && (s.outcome == AlreadyInProgress <==> actor == adminId && id in orders && orders[id].status == InProgress)
      && (s.outcome == Accepted <==> actor == adminId && id in orders && orders[id].status == New)
    ensures s.outcome != Accepted ==> s == AnswerOnly(s.outcome, s.target, orders)
    ensures s.outcome == Accepted ==> var id := AfterFirstColon(data);
      && s.orders == orders[id := orders[id].(status := InProgress)]
      && s.response.edit == Some(OperatorView(s.orders[id], Some(KbInProgress(orders[id].orderId))))
      && s.response.notice == Some(Notice(orders[id].userId, AcceptedNotice))
  {
    if actor != adminId then AnswerOnly(Unauthorized, None, orders)
    else
      var id := AfterFirstColon(data);
      if id !in orders then AnswerOnly(NotFound, Some(id), orders)
      else
        var o := orders[id];
        if o.status == Done then AnswerOnly(Closed, Some(id), orders)
        else if o.status == InProgress then AnswerOnly(AlreadyInProgress, Some(id), orders)
        else
          var o' := o.(status := InProgress);
          Step(Accepted, Some(id), orders[id := o'],
               Response(AnswerFor(Accepted),
                        Some(OperatorView(o', Some(KbInProgress(o'.orderId)))),
                        Some(Notice(o'.userId, AcceptedNotice))))
  }

  /** `on_done`. */
  function DoneStep(orders: Registry, adminId: UserId, actor: UserId, data: string): (s: Step)
    requires RouteOf(data) == ToDone
    ensures s.response.answer == AnswerFor(s.outcome)
    ensures actor != adminId <==> s.outcome == Unauthorized
    ensures actor != adminId ==> s == AnswerOnly(Unauthorized, None, orders)
    ensures actor == adminId ==> s.target == Some(AfterFirstColon(data))
    ensures var id := AfterFirstColon(data);
      && (s.outcome == NotFound <==> actor == adminId && id !in orders)
      && (s.outcome == AlreadyDone <==> actor == adminId && id in orders && orders[id].status == Done)
      && (s.outcome == NotAccepted <==> actor == adminId && id in orders && orders[id].status == New)
      && (s.outcome == Completed <==> actor == adminId && id in orders && orders[id].status == InProgress)
    ensures s.outcome != Completed ==> s == AnswerOnly(s.outcome, s.target, orders)
    // after completion the operator's message keeps no keyboard at all
    ensures s.outcome == Completed ==> var id := AfterFirstColon(data);
      && s.orders == orders[id := orders[id].(status := Done)]
      && s.response.edit == Some(OperatorView(s.orders[id], None))
      && s.response.notice == Some(Notice(orders[id].userId, CompletedNotice))
  {
    if actor != adminId then AnswerOnly(Unauthorized, None, orders)
    else
      var id := AfterFirstColon(data);
      if id !in orders then AnswerOnly(NotFound, Some(id), orders)
      else
        var o := orders[id];
        if o.status == Done then AnswerOnly(AlreadyDone, Some(id), orders)
        else if o.status != InProgress then AnswerOnly(NotAccepted, Some(id), orders)
        else
          var o' := o.(status := Done);
          Step(Completed, Some(id), orders[id := o'],
               Response(AnswerFor(Completed),
                        Some(OperatorView(o', None)),
                        Some(Notice(o'.userId, CompletedNotice))))
  }

  /** A callback press, dispatched on its data to `on_accept`, `on_done` or
      `on_noop` (the indicator answers anyone and changes nothing); data no
      filter matches is left unanswered. */
  function PressStep(orders: Registry, adminId: UserId, actor: UserId, data: string): (s: Step)
    // the registry keeps its keys; only the pressed order may change, and
    // then only its status, by exactly one step forward
    ensures s.orders.Keys == orders.Keys
    ensures forall k :: k in orders && Some(k) != s.target ==> s.orders[k] == orders[k]
    ensures IsTransition(s.outcome) <==> s.orders != orders
    ensures !IsTransition(s.outcome) ==> s.response.notice == None && s.response.edit == None
    ensures IsTransition(s.outcome) ==>
      && s.target.Some? && s.target.value in orders
      && Advanced(orders[s.target.value], s.orders[s.target.value])
      && s.response.notice == Some(NoticeScript(orders[s.target.value].userId)[Rank(orders[s.target.value].status)])
      && s.response.edit.Some? && s.response.edit.value.order == s.orders[s.target.value]
    ensures actor != adminId ==> s.orders == orders
    ensures KeyedById(orders) ==> KeyedById(s.orders)
  {
    match RouteOf(data)
    case ToAccept => AcceptStep(orders, adminId, actor, data)
    case ToDone => DoneStep(orders, adminId, actor, data)
    case ToNoop => AnswerOnly(Indicator, None, orders)
    case Unrouted => Step(Ignored, None, orders, Response(None, None, None))
  }

  /** The button on a fresh order's operator message accepts that order. */
  lemma NewViewAccepts(orders: Registry, adminId: UserId, id: OrderId)
    requires id in orders && orders[id].status == New
    ensures var s := PressStep(orders, adminId, adminId, Buttons(KbNew(id))[0].callbackData);
      s.outcome == Accepted && s.target == Some(id) && s.orders[id].status == InProgress
  {
  }

  /** After the operator accepts a new order, the "done" button of the edited
      operator message completes that same order. */
  lemma AcceptedViewCompletes(orders: Registry, adminId: UserId, id: OrderId)
    requires id in orders && orders[id].orderId == id && orders[id].status == New
    ensures var s := PressStep(orders, adminId, adminId, "accept:" + id);
      && s.outcome == Accepted && s.target == Some(id)
      && s.response.edit.Some? && s.response.edit.value.keyboard.Some?
      && var b := Buttons(s.response.edit.value.keyboard.value);
      && |b| == 2
      && var s' := PressStep(s.orders, adminId, adminId, b[1].callbackData);
      && s'.outcome == Completed && s'.target == Some(id)
      && id in s'.orders && s'.orders[id].status == Done
  {
    AfterFirstColonOf("accept", id);
    assert "accept" + ":" + id == "accept:" + id;
  }

  /** A real transition always changes what the operator's message shows:
      the edited text differs from the rendering of the order before the press. */
  lemma TransitionEditShowsChange(orders: Registry, adminId: UserId, actor: UserId, data: string)
    ensures var s := PressStep(orders, adminId, actor, data);
      IsTransition(s.outcome) ==>
        && s.target.Some? && s.target.value in orders && s.response.edit.Some?
        && s.response.edit.value.Text() != AdminOrderText(orders[s.target.value])
  {
    var s := PressStep(orders, adminId, actor, data);
    if IsTransition(s.outcome) {
      var o := orders[s.target.value];
      AdminOrderTextShowsStatus(o, s.orders[s.target.value].status);
    }
  }
}
