# Order desk bot: a Dafny model of its order lifecycle

`bot.py` is a Telegram bot for taking orders. Any user sends a text message,
and that message becomes an order. The bot stores the order in an in-memory
registry (`ORDERS`) and posts it to one operator (`ADMIN_ID`) with inline
buttons. The operator uses these buttons to "accept" an order and later
mark it "done". Each step moves the order along `new → in_progress → done`,
edits the operator's message and tells the submitter.

The project has these modules:

- `PyStr` writes out the Python string operations whose edge cases the bot
  relies on:
  - `str.strip()`, using CPython's whitespace set;
  - `str(int)`;
  - `split(":", 1)[1]`;
  - `html.escape`.
- `Orders` holds the `Order` record, the submitter's profile,
  `display_name`, `status_label`, `admin_order_text`, the two keyboards and
  the routing of callback data to handlers.
- `Lifecycle` gives the decision logic of `on_accept`, `on_done` and
  `on_noop` as pure step functions. Each maps the registry before a press to
  an outcome, the registry after the press and a `Response`. A `Response`
  holds what the transport is asked to do:
  - answer the presser;
  - edit the operator's message;
  - notify the submitter.
- `Traces` states what any sequence of presses can and cannot do.
- `Desk` holds the class `OrderDesk`. Its `orders` field is the registry
  (`ORDERS`) and its `adminId` constant is `ADMIN_ID`. Its methods are the
  handlers, which update the registry in place. `OnAccept`, `OnDone` and
  `OnCallback` are proved equal to the matching step function of
  `Lifecycle`. The other three methods state their effect directly:
  - `SubmitOrder` and `AttachAdminMessage` are the two halves of `on_order`;
  - `OnNoop` changes nothing and answers.

In four places the code does not do what one would naturally expect of an
order desk. The model follows the code:

- Order ids are not unique. An id is the first 8 characters of a `uuid4`
  (bot.py:121). `SubmitOrder` takes the id as an input with no freshness
  precondition, so a collision silently replaces the older order, as the
  dict assignment at bot.py:127 does. The model also shows such a
  collision: `Desk.Walkthrough` ends with a closed order being replaced by a
  new one under the same id. This is the one way a stored status goes back to
  `new`.
- The stored text is `message.text.strip()`, not the message as sent.
- The callback tokens are `accept:<id>`, `done:<id>` and a bare `noop`.
- Callback data that no handler's filter matches gets no answer at all. It
  would naturally be answered as an order that was not found.

## Model

| member | source | states |
|---|---|---|
| PyStr.Strip | bot.py:124 | `str.strip()`: the result is a contiguous slice of the input and every character outside it is whitespace. The result neither starts nor ends with whitespace, and it is empty exactly when the input is whitespace only |
| PyStr.StripTrimmed | bot.py:60 | a string with no whitespace at either end is its own strip |
| PyStr.StripIdempotent | bot.py:60 | stripping twice gives the same as stripping once |
| PyStr.AllSpaceConcat | bot.py:59-60 | a concatenation is whitespace only exactly when both parts are, so the joined name is blank exactly when both name fields are |
| PyStr.DigitChar | bot.py:63 | the decimal digit character for a value below ten, carrying that value |
| PyStr.NatToDecimal | bot.py:63 | `str(n)` for n ≥ 0: a non-empty string of digits, with no leading zero except for "0" itself, whose decimal value is n |
| PyStr.IntToDecimal | bot.py:63 | `str(i)`: a leading '-' exactly for a negative number, followed by the digits of its magnitude |
| PyStr.ColonIndex | bot.py:166 | the position of the first ':' in the data: it holds ':' and no earlier position does |
| PyStr.AfterFirstColon | bot.py:166 | `split(":", 1)[1]`: the suffix after a ':' that has no ':' before it |
| PyStr.AfterFirstColonOf | bot.py:88 | for a prefix without ':', splitting `prefix:rest` gives back `rest` whatever `rest` contains, so a token always parses to its own id |
| PyStr.HtmlEscape | bot.py:78-81 | `html.escape`: the result contains no `<`, `>`, `"` or `'`, is never shorter than the input, and leaves text without markup or `&` unchanged |
| PyStr.UnescapeEntity | bot.py:78-81 | each of the five character references decodes to its character |
| PyStr.UnescapePlain | bot.py:78-81 | a character other than `&` decodes to itself |
| PyStr.UnescapeEscapedChar | bot.py:78-81 | the escape of one character decodes back to that character |
| PyStr.HtmlEscapeRoundTrip | bot.py:78-81 | escaping loses nothing: unescaping the escaped text gives the original text back |
| Orders.StatusLabel | bot.py:65-74 | `status_label`: the "unknown" label is returned exactly for strings other than the three status codes, and every label has a non-empty icon and caption |
| Orders.StatusLabelsDistinct | bot.py:51 | no stored status ever reaches the "unknown" fallback, and different statuses get different captions |
| Orders.FullName | bot.py:59-60 | the joined, stripped first and last name is empty exactly when both fields are blank or absent; otherwise it has no whitespace at either end |
| Orders.DisplayName | bot.py:58-63 | `display_name` never returns an empty string. It returns the full name if there is one, otherwise `@username` if the username is non-empty, otherwise `id` followed by the numeric id |
| Orders.JoinedNames | bot.py:60 | `" ".join(p for p in parts if p)` on the first and last name: the result equals a general `Join` over the non-empty parts, and it is empty exactly when both names are |
| Orders.AdminOrderText | bot.py:76-84 | `admin_order_text`: the rendering opens with the bold order id line and closes with the status icon and bold caption from `status_label` |
| Orders.AdminOrderTextShowsStatus | bot.py:76-84 | orders that differ only in status render to different operator texts |
| Orders.RouteOf | bot.py:160-238 | data goes to `on_accept` exactly when it starts with `accept:`, to `on_done` exactly when it starts with `done:`, and to `on_noop` exactly when it is `noop`. Data routed to accept or done contains a ':' |
| Orders.KbNew | bot.py:86-90 | `kb_new` has exactly one button. Its data routes to `on_accept` and parses to this order's id |
| Orders.KbInProgress | bot.py:92-97 | `kb_in_progress` is one row of two buttons. The first is the `noop` indicator and the second routes to `on_done` with this order's id. No button accepts |
| Lifecycle.AnswerFor | bot.py:163-240 | every handled press is answered, and data no handler matches is not. The answer is an alert exactly for the rejections: not the operator, not found, closed, accept first |
| Lifecycle.AcceptStep | bot.py:161-197 | `on_accept`: anyone but the operator gets "operator only", with no lookup and no change. Otherwise the id after the first ':' is looked up: missing gives not found, `done` gives closed and `in_progress` gives "already in progress", each with no change, edit or message. Only `new` becomes `in_progress`; that entry alone is replaced, the operator message is edited to show the new state with `kb_in_progress`, and the submitter is sent the acceptance message |
| Lifecycle.DoneStep | bot.py:200-236 | `on_done`: the same identity check and lookup. `done` gives a non-alert "already closed" and `new` gives "accept first", each with no change. Only `in_progress` becomes `done`; the operator message loses its keyboard and the submitter is sent the completion message |
| Lifecycle.PressStep | bot.py:160-240 | any press keeps the registry's keys and every entry but the pressed one. The registry changes exactly on a transition. A transition advances the pressed order's status one step, leaves its other fields alone, sends its submitter that step's message, and edits the operator message to the new order. A press by anyone but the operator changes nothing. Every order stays stored under its own id |
| Lifecycle.NewViewAccepts | bot.py:171-178 | the operator pressing the button of a new order's message accepts that very order |
| Lifecycle.AcceptedViewCompletes | bot.py:178-217 | after an accept, the "done" button of the edited message completes the same order when the operator presses it |
| Lifecycle.TransitionEditShowsChange | bot.py:178-224 | after a real transition, the edited operator message shows a different text from the rendering of the order before the press |
| Traces.RunIsMonotone | bot.py:178-217 | over any sequence of presses, no order is added or removed and only statuses change. A status never moves backwards |
| Traces.RunNotices | bot.py:178-234 | over any sequence of presses, an order's submitter gets exactly one message per real transition, the acceptance message before the completion message, and nothing more |
| Traces.DoneIsFinal | bot.py:171-212 | a closed order stays as it is under any presses and its submitter hears nothing more |
| Traces.StrangersChangeNothing | bot.py:162-203 | presses by anyone but the operator leave the registry unchanged and notify no submitter, whatever orders they name |
| Traces.AcceptTwiceNotifiesOnce | bot.py:174-178 | accepting a new order twice leaves it in progress and sends its submitter one message |
| Desk.OrderDesk.constructor | bot.py:32-54 | the desk starts with the given operator id and an empty registry |
| Desk.OrderDesk.SubmitOrder | bot.py:119-146 | `on_order` builds a new order with the sender's id, display name, stripped text, status `new` and no operator message. It stores the order under its id and leaves every other entry unchanged. It thanks the submitter and posts the order to the operator with `kb_new` |
| Desk.OrderDesk.AttachAdminMessage | bot.py:148 | records the operator message id on the order and changes nothing else |
| Desk.OrderDesk.OnAccept | bot.py:161-197 | the imperative guard chain gives exactly `AcceptStep`'s outcome, response and new registry. Because the desk keeps every order under its own id, after an accept the "done" button of the edited message parses to the id in the pressed data |
| Desk.OrderDesk.OnDone | bot.py:200-236 | the imperative guard chain gives exactly `DoneStep`'s outcome, response and new registry |
| Desk.OrderDesk.OnNoop | bot.py:238-240 | the indicator gives a non-alert answer, with no edit and no message |
| Desk.OrderDesk.OnCallback | bot.py:160-240 | a callback is dispatched by its data; its effect is exactly `PressStep`'s |
| Desk.AliceIsAlice | bot.py:58-63 | a user named "Alice" with no last name is displayed as "Alice" |

## Left out

- The aiogram transport (`Bot`, `Dispatcher`, `Router`, `call.answer`, `edit_text`, `send_message`, polling, `main`) is foreign library code. Each handler instead returns a `Response` value describing the calls it would make.
- In `on_accept` and `on_done`, a failed edit or notification is caught and ignored, and the status is committed before either call. So these failures change no state, and the model leaves them out.
- Desk.OrderDesk.SubmitOrder: the two sends in `on_order`, the receipt at bot.py:136 and the operator post at bot.py:142, are not guarded by `try`. The model leaves out their failure. If the receipt fails, the order stays stored but the operator is never posted. If either send fails, `admin_msg_id` is never set and `AttachAdminMessage` is not called.
- async/await scheduling and concurrency are not modelled. The guard chains of `on_accept` and `on_done` do not await between their check and their update, so a sequential model of them is faithful. `on_order` does await between storing the order and recording `admin_msg_id`, and the model splits it into two methods at that point.
- Logging, and the append to `orders.txt` with the current time (`log_order_created`), are I/O and a clock.
- `uuid.uuid4()`: the id is a parameter of `SubmitOrder`.
- Reading `BOT_TOKEN` and `ADMIN_ID` from the environment is configuration; the desk takes the operator id as a constructor argument, and `DefaultAdminId` is the fallback value.
- `on_start` and `on_non_text` are fixed replies that touch no state. The `CommandStart` filter, which sends `/start` to `on_start` instead of `on_order`, is not modelled.
- Desk.OrderDesk: an order is a value stored in the map, not a shared object. Setting `o.status` or `o.admin_msg_id` becomes replacing the map entry. This shows the same states as long as no other submission reuses the id while `on_order` is waiting.
- Desk.OrderDesk.AttachAdminMessage: writes onto whichever order is stored under the id. The source writes onto the object its own `on_order` call created. Suppose a second submission draws the same id during the awaits at bot.py:136-142. The source then sets `admin_msg_id` on the replaced order, which is no longer stored, and the stored order keeps `None`. The model sets it on the stored order instead.
- Lifecycle.PressStep: callback data is a string, so a callback with no data (`call.data` is `None`) is not modelled.
- PyStr.IsSpace: the whitespace set is fixed to CPython's `str.isspace()`. No other Unicode data is modelled.
- The HTML parse mode of the transport is not modelled. The operator text is an ordinary string.
