/** The per-user order dialogue of main.py as a pure step function: given the
    user's session (FSM state and data dict) and one text message, which
    handler aiogram 2 runs, what the session becomes, and what the bot sends.
    The class in bot.dfy performs the same steps in place. */
module Dialogue {
  import opened Wrappers
  import opened Text
  import opened Menu

  type UserId = int

  /** No FSM state, `OrderForm.waiting_quantity`, `OrderForm.waiting_confirm`. */
  datatype FormState = Idle | WaitingQuantity | WaitingConfirm

  /** The FSM data dict; each of its four keys may be absent. */
  datatype Data = Data(item: Option<string>, price: Option<int>, quantity: Option<int>, total: Option<int>)

  const NoData := Data(None, None, None, None)

  datatype Session = Session(state: FormState, data: Data)

  /** What `state.finish()` leaves, and what MemoryStorage starts a user with. */
  const Fresh := Session(Idle, NoData)

  /** `state.update_data(...)`: the keys given in `patch` overwrite, the other
      keys are kept. */
  function Merge(d: Data, patch: Data): Data {
    Data(
      if patch.item.Some? then patch.item else d.item,
      if patch.price.Some? then patch.price else d.price,
      if patch.quantity.Some? then patch.quantity else d.quantity,
      if patch.total.Some? then patch.total else d.total)
  }

  const CancelButton := "❌ Отмена"
  const DefaultCafeName := "Кофейню"
  const DefaultPhone := "+7 (XXX) XXX-XX-XX"

  /** The fixed quantity keyboard: `{"1": 1, "2": 2, "3+": 3}`. */
  function QuantityOf(text: string): (q: Option<int>)
    ensures q.Some? <==> text in {"1", "2", "3+"}
    ensures q.Some? ==> 1 <= q.value <= 3
  {
    if text == "1" then Some(1)
    else if text == "2" then Some(2)
    else if text == "3+" then Some(3)
    else None
  }

  /** A condition every session the handlers produce meets: no data when
      idle; exactly a menu entry's item and price while waiting for the
      quantity; that plus a quantity of 1 to 3 and the matching total while
      waiting for the confirmation. It also admits drafts of entries that
      cannot be selected (a blank-start name, a `/start` button text). */
  predicate WellFormed(config: Config, s: Session) {
    match s.state
    case Idle => s.data == NoData
    case WaitingQuantity =>
      s.data.item.Some? && s.data.price.Some? && s.data.quantity.None? && s.data.total.None?
      && (s.data.item.value, s.data.price.value) in config.menu
    case WaitingConfirm =>
      s.data.item.Some? && s.data.price.Some? && s.data.quantity.Some? && s.data.total.Some?
      && (s.data.item.value, s.data.price.value) in config.menu
      && 1 <= s.data.quantity.value <= 3
      && s.data.total.value == s.data.price.value * s.data.quantity.value
  }

  /** An incoming text message and the sender's Telegram username, if any. */
  datatype Message = Message(user: UserId, username: Option<string>, text: string)

  /** The replies the bot sends to the customer, as tags with the values they show. */
  datatype Reply =
    | Welcome(cafeName: string)
    | DebugReport(session: Session)
    | QuantityPrompt(item: string, price: int)
    | Reprompt
    | Summary(item: string, quantity: int, total: int)
    | Cancelled
    | ConfigError
    | Accepted(phone: string)
    | Fallback

  /** The order message sent to the admin chat. */
  datatype Notice = Notice(
    cafeName: Option<string>,
    item: string,
    quantity: int,
    total: int,
    customer: string,
    userId: UserId,
    phone: string)

  /** One send of the bot: a reply to the user, or an attempted send to the
      admin chat together with whether Telegram accepted it. */
  datatype Outgoing =
    | ToUser(user: UserId, reply: Reply)
    | ToAdmin(chat: int, notice: Notice, delivered: bool)

  /** A handler's effect: the user's new session and what was sent, in order. */
  datatype Effect = Effect(session: Session, out: seq<Outgoing>)

  /** The handlers of main.py; `Unhandled` is the update on which a filter
      raised, so that no handler ran. */
  datatype Handler = OnStart | OnDebugInfo | OnStartOrder | OnQuantity | OnConfirm | OnFallback | Unhandled

  /** aiogram 2's `commands=["start"]` filter: Some(true) when the first word
      of the text is "/start" (any ASCII case), optionally followed by
      "@" and the bot's own username; None when the filter raises, which
      `text.split()[0]` does on a non-empty all-whitespace text. */
  function StartCommandFilter(config: Config, text: string): (r: Option<bool>)
    ensures r.None? <==> text != [] && AllSpace(text)
  {
    if text == [] then Some(false)
    else
      match FirstWord(text)
      case None => None
      case Some(w) =>
        var (command, mention) := Partition(w[1..], '@');
        Some((mention == [] || EqualIgnoringAsciiCase(mention, config.botUsername))
             && w[0] == '/' && EqualIgnoringAsciiCase(command, "start"))
  }

  /** The handler aiogram 2 runs. The state filter is checked first, and a
      handler registered without `state=` only fires for a user with no
      state, so in the two dialogue states every text goes to the state's
      handler; with no state the handlers are tried in registration order. */
  function Route(config: Config, state: FormState, text: string): (h: Handler)
    ensures state == WaitingQuantity <==> h == OnQuantity
    ensures state == WaitingConfirm <==> h == OnConfirm
    ensures h == OnStartOrder <==>
      state == Idle && StartCommandFilter(config, text) == Some(false) && text != DebugButton
      && MenuMatches(config.menu, Strip(text))
  {
    match state
    case WaitingQuantity => OnQuantity
    case WaitingConfirm => OnConfirm
    case Idle =>
      match StartCommandFilter(config, text)
      case None => Unhandled
      case Some(true) => OnStart
      case Some(false) =>
        if text == DebugButton then OnDebugInfo
        else if MenuMatches(config.menu, Strip(text)) then OnStartOrder
        else OnFallback
  }

  /** start_order: the first menu entry whose button reads the stripped text
      replaces all earlier data, and the user is asked for the quantity. */
  function SelectItem(config: Config, s: Session, msg: Message): Effect {
    match FirstMatch(config.menu, Strip(msg.text))
    case None => Effect(s, [])
    case Some(i) =>
      var entry := config.menu[i];
      Effect(Session(WaitingQuantity, Merge(NoData, Data(Some(entry.0), Some(entry.1), None, None))),
             [ToUser(msg.user, QuantityPrompt(entry.0, entry.1))])
  }

  /** SelectItem spelled out for the entry the search of the menu found.
      Dafny needs no proof for it; it is a lemma of its own so that the
      method StartOrder does not have to unfold the menu search. */
  lemma SelectItemFound(config: Config, s: Session, msg: Message, found: Option<nat>)
    requires found == FirstMatch(config.menu, Strip(msg.text))
    ensures found.None? ==> SelectItem(config, s, msg) == Effect(s, [])
    ensures found.Some? ==> (found.value < |config.menu|
      && SelectItem(config, s, msg) ==
         Effect(Session(WaitingQuantity, Data(Some(config.menu[found.value].0), Some(config.menu[found.value].1), None, None)),
                [ToUser(msg.user, QuantityPrompt(config.menu[found.value].0, config.menu[found.value].1))]))
  {
  }

  /** process_quantity. A missing "price" or "item" key raises KeyError, which
      ends the handler where it stands. */
  function TakeQuantity(s: Session, msg: Message): Effect {
    if msg.text == CancelButton then Effect(Fresh, [ToUser(msg.user, Cancelled)])
    else
      match QuantityOf(msg.text)
      case None => Effect(s, [ToUser(msg.user, Reprompt)])
      case Some(q) =>
        match s.data.price
        case None => Effect(s, [])
        case Some(price) =>
          var data := Merge(s.data, Data(None, None, Some(q), Some(price * q)));
          match s.data.item
          case None => Effect(Session(s.state, data), [])
          case Some(item) => Effect(Session(WaitingConfirm, data), [ToUser(msg.user, Summary(item, q, price * q))])
  }

  /** The customer named in the admin message: the username, or else the id. */
  function CustomerHandle(msg: Message): string {
    if msg.username.Some? && msg.username.value != [] then msg.username.value else IntToString(msg.user)
  }

  function PhoneOf(config: Config): string {
    if config.phone.Some? then config.phone.value else DefaultPhone
  }

  /** An admin chat id is configured when it is present and not 0. */
  predicate AdminConfigured(config: Config) {
    config.adminChatId.Some? && config.adminChatId.value != 0
  }

  /** confirm_order. Any text other than the cancel button confirms; a missing
      "item", "quantity" or "total" key raises KeyError before anything is
      sent. The admin send may fail (`delivered` is false); that is logged and
      the customer is told the order was accepted all the same. */
  function Confirm(config: Config, s: Session, msg: Message, delivered: bool): Effect {
    if msg.text == CancelButton then Effect(Fresh, [ToUser(msg.user, Cancelled)])
    else if !AdminConfigured(config) then Effect(Fresh, [ToUser(msg.user, ConfigError)])
    else if s.data.item.None? || s.data.quantity.None? || s.data.total.None? then Effect(s, [])
    else
      var notice := Notice(config.name, s.data.item.value, s.data.quantity.value, s.data.total.value,
                           CustomerHandle(msg), msg.user, PhoneOf(config));
      Effect(Fresh, [ToAdmin(config.adminChatId.value, notice, delivered), ToUser(msg.user, Accepted(PhoneOf(config)))])
  }

  function CafeName(config: Config): string {
    if config.name.Some? then config.name.value else DefaultCafeName
  }

  /** What handler `h` does with the user's session and the message. */
  function Handle(config: Config, h: Handler, s: Session, msg: Message, delivered: bool): Effect {
    match h
    case Unhandled => Effect(s, [])
    case OnStart => Effect(s, [ToUser(msg.user, Welcome(CafeName(config)))])
    case OnDebugInfo => Effect(s, [ToUser(msg.user, DebugReport(s))])
    case OnStartOrder => SelectItem(config, s, msg)
    case OnQuantity => TakeQuantity(s, msg)
    case OnConfirm => Confirm(config, s, msg, delivered)
    case OnFallback => Effect(Fresh, [ToUser(msg.user, Fallback)])
  }

  /** One message of one user, from the handler choice to the handler's effect. */
  function Step(config: Config, s: Session, msg: Message, delivered: bool): Effect {
    Handle(config, Route(config, s.state, msg.text), s, msg, delivered)
  }

  /** The session MemoryStorage holds for `user` (a fresh one if none yet). */
  function SessionIn(store: map<UserId, Session>, user: UserId): Session {
    if user in store then store[user] else Fresh
  }

  /** Handling one message: only the sender's session is replaced. */
  function Deliver(config: Config, store: map<UserId, Session>, m: (Message, bool)): map<UserId, Session> {
    store[m.0.user := Step(config, SessionIn(store, m.0.user), m.0, m.1).session]
  }
}
