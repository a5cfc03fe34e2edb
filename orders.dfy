/**
 * The order record, the submitter's profile and the pure helpers of bot.py:
 * the display-name fallback chain, the status labels, the operator's order
 * rendering, the two inline keyboards and the routing of callback data.
 */
module Orders {
  import opened Wrappers
  import opened PyStr

  /** A chat principal's numeric identity (Telegram user / chat id). */
  type UserId = int

  /** The opaque order identifier carried in callback data. */
  type OrderId = string

  /** The only three values bot.py ever stores in `Order.status`. */
  datatype Status = New | InProgress | Done

  /** The string bot.py stores for each status. */
  function StatusCode(s: Status): string
  {
    match s
    case New => "new"
    case InProgress => "in_progress"
    case Done => "done"
  }

  /** How far along the lifecycle a status is. */
  function Rank(s: Status): nat
  {
    match s
    case New => 0
    case InProgress => 1
    case Done => 2
  }

  const UnknownLabel: (string, string) := ("❔", "Неизвестно")

  /** `status_label`: icon and caption for a status string, with a fallback
      for any string that is not one of the three codes. */
  function StatusLabel(code: string): (r: (string, string))
    ensures r == UnknownLabel <==> code !in {"new", "in_progress", "done"}
    ensures r.0 != "" && r.1 != ""
  {
    match code
    case "new" => ("🆕", "Новый")
    case "in_progress" => ("⏳", "В работе")
    case "done" => ("✅", "Закрыт")
    case _ => UnknownLabel
  }

  /** Every stored status has its own known label: the fallback is unreachable. */
  lemma StatusLabelsDistinct(a: Status, b: Status)
    ensures StatusLabel(StatusCode(a)) != UnknownLabel
    ensures a != b ==> StatusLabel(StatusCode(a)).1 != StatusLabel(StatusCode(b)).1
  {
  }

  /** The `Order` dataclass. */
  datatype Order = Order(
    orderId: OrderId,
    userId: UserId,
    userName: string,
    text: string,
    status: Status,
    adminMsgId: Option<int>)

  /** The profile fields of a Telegram user that `display_name` reads. */
  datatype User = User(
    id: UserId,
    firstName: string,
    lastName: Option<string>,
    username: Option<string>)

  /** `" ".join(p for p in [first, last] if p)`: empty exactly when both
      names are, and a single space only between two non-empty names. */
  function JoinedNames(first: string, last: string): (r: string)
    ensures r == Join(" ", NonEmptyParts([first, last]))
    ensures r == "" <==> first == "" && last == ""
  {
    assert [first, last][1..] == [last];
    assert NonEmptyParts([last]) == (if last == "" then [] else [last]) by {
      assert [last][1..] == [];
    }
    if first == "" then last
    else if last == "" then first
    else
      assert NonEmptyParts([first, last]) == [first, last];
      assert [first, last][1..] == [last];
      first + " " + last
  }

  /** The stripped full name: empty exactly when both name fields are
      whitespace only, and otherwise free of surrounding whitespace. */
  function FullName(u: User): (r: string)
    ensures r == [] <==> AllSpace(u.firstName) && AllSpace(OrEmpty(u.lastName))
    ensures r != [] ==> !IsSpace(r[0]) && !IsSpace(r[|r| - 1])
  {
    var first, last := u.firstName, OrEmpty(u.lastName);
    var joined := JoinedNames(first, last);
    assert AllSpace(joined) <==> AllSpace(first) && AllSpace(last) by {
      if first != "" && last != "" {
        AllSpaceConcat(first, " ");
        AllSpaceConcat(first + " ", last);
      }
    }
    Strip(joined)
  }

  /** `display_name`: full name, else "@" + username, else "id" + the numeric
      id; the result is never empty. */
  function DisplayName(u: User): (r: string)
    ensures r != []
    ensures FullName(u) != [] ==> r == FullName(u)
    ensures FullName(u) == [] && OrEmpty(u.username) != [] ==> r == "@" + OrEmpty(u.username)
    ensures FullName(u) == [] && OrEmpty(u.username) == [] ==> r == "id" + IntToDecimal(u.id)
  {
    var full := FullName(u);
    var name := if full == "" && OrEmpty(u.username) != "" then "@" + OrEmpty(u.username) else full;
    if name != "" then name else "id" + IntToDecimal(u.id)
  }

  /** The first line of the operator's rendering: the order's id in bold. */
  function OrderHeader(o: Order): string
  {
    "<b>Заказ #" + o.orderId + "</b>\n"
  }

  /** The end of the operator's rendering: the status icon and caption. */
  function StatusTail(s: Status): string
  {
    var (icon, caption) := StatusLabel(StatusCode(s));
    icon + " <b>" + caption + "</b>"
  }

  /** `admin_order_text`: the operator's HTML rendering of an order. It opens
      with the order's id and closes with its status label, and every field
      shown in between is escaped except the decimal user id. */
  function AdminOrderText(o: Order): (r: string)
    ensures OrderHeader(o) <= r
    ensures |StatusTail(o.status)| <= |r| && r[|r| - |StatusTail(o.status)|..] == StatusTail(o.status)
  {
    var (icon, caption) := StatusLabel(StatusCode(o.status));
    var head := OrderHeader(o);
    var body := "👤 От: <code>" + HtmlEscape(o.userName) + "</code> (ID: <code>" + IntToDecimal(o.userId) + "</code>)\n"
      + "💬 Текст: <i>" + HtmlEscape(o.text) + "</i>\n"
      + "📌 Статус: ";
    var tail := icon + " <b>" + caption + "</b>";
    assert tail == StatusTail(o.status);
    var r := head + body + tail;
    assert r[..|head|] == head;
    assert r[|r| - |tail|..] == tail;
    r
  }

  /** The rendering tells the statuses apart: editing the operator's message
      after a transition always changes what it shows. */
  lemma {:induction false} AdminOrderTextShowsStatus(o: Order, s: Status)
    requires s != o.status
    ensures AdminOrderText(o) != AdminOrderText(o.(status := s))
  {
    var t, t' := AdminOrderText(o), AdminOrderText(o.(status := s));
    var base := |"<b>Заказ #" + o.orderId + "</b>\n"
      + "👤 От: <code>" + HtmlEscape(o.userName) + "</code> (ID: <code>" + IntToDecimal(o.userId) + "</code>)\n"
      + "💬 Текст: <i>" + HtmlEscape(o.text) + "</i>\n"
      + "📌 Статус: "|;
    assert |t| == base + 1 + 4 + |StatusLabel(StatusCode(o.status)).1| + 4;
    assert |t'| == base + 1 + 4 + |StatusLabel(StatusCode(s)).1| + 4;
  }

  // ---------------------------------------------------------------------------
  // Inline keyboards and callback routing
  // ---------------------------------------------------------------------------

  datatype Button = Button(text: string, callbackData: string)

  /** Rows of buttons, as `InlineKeyboardBuilder.adjust` lays them out. */
  type Keyboard = seq<seq<Button>>

  /** Which handler a callback's data is dispatched to, by the filters on
      `on_accept`, `on_done` and `on_noop` in the order they are registered. */
  datatype Route = ToAccept | ToDone | ToNoop | Unrouted

  function RouteOf(data: string): (r: Route)
    ensures r == ToAccept <==> "accept:" <= data
    ensures r == ToDone <==> "done:" <= data
    ensures r == ToNoop <==> data == "noop"
    ensures r != Unrouted ==> ':' in data || data == "noop"
  {
    if "accept:" <= data then
      assert data[0] == 'a' && data[6] == ':';
      ToAccept
    else if "done:" <= data then
      assert data[4] == ':';
      ToDone
    else if data == "noop" then ToNoop
    else Unrouted
  }

  /** All buttons of a keyboard, row by row. */
  function Buttons(k: Keyboard): seq<Button>
  {
    if k == [] then [] else k[0] + Buttons(k[1..])
  }

  /** `kb_new`: one button, which routes to the accept handler for this very order. */
  function KbNew(id: OrderId): (k: Keyboard)
    ensures |Buttons(k)| == 1
    ensures RouteOf(Buttons(k)[0].callbackData) == ToAccept
    ensures AfterFirstColon(Buttons(k)[0].callbackData) == id
  {
    var k := [[Button("✅ Принять в работу", "accept:" + id)]];
    assert Buttons(k) == k[0];
    AfterFirstColonOf("accept", id);
    assert "accept" + ":" + id == "accept:" + id;
    k
  }

  /** `kb_in_progress`: a status indicator and a "done" button for this very
      order, side by side; no button of it accepts. */
  function KbInProgress(id: OrderId): (k: Keyboard)
    ensures |k| == 1 && |Buttons(k)| == 2
    ensures RouteOf(Buttons(k)[0].callbackData) == ToNoop
    ensures RouteOf(Buttons(k)[1].callbackData) == ToDone
    ensures AfterFirstColon(Buttons(k)[1].callbackData) == id
    ensures forall b :: b in Buttons(k) ==> RouteOf(b.callbackData) != ToAccept
  {
    var k := [[Button("⏳ В работе", "noop"), Button("🏁 Выполнено", "done:" + id)]];
    assert Buttons(k) == k[0];
    AfterFirstColonOf("done", id);
    assert "done" + ":" + id == "done:" + id;
    k
  }
}
