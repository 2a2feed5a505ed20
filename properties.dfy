/** What the order dialogue promises, proved of the step function: how each
    state treats each kind of text, which sessions can arise, when the admin
    chat is written to, and that users do not affect one another. */
module Properties {
  import opened Wrappers
  import opened Text
  import opened Menu
  import opened Dialogue

  /** The number of sends to the admin chat among `out`. */
  function AdminSends(out: seq<Outgoing>): nat {
    if out == [] then 0 else (if out[0].ToAdmin? then 1 else 0) + AdminSends(out[1..])
  }

  /** The number of replies to the customer among `out`. */
  function UserReplies(out: seq<Outgoing>): nat {
    if out == [] then 0 else (if out[0].ToUser? then 1 else 0) + UserReplies(out[1..])
  }

  lemma CountOne(o: Outgoing)
    ensures AdminSends([o]) == (if o.ToAdmin? then 1 else 0)
    ensures UserReplies([o]) == (if o.ToUser? then 1 else 0)
  {
    assert [o][1..] == [];
  }

  lemma CountTwo(o: Outgoing, o': Outgoing)
    ensures AdminSends([o, o']) == (if o.ToAdmin? then 1 else 0) + (if o'.ToAdmin? then 1 else 0)
    ensures UserReplies([o, o']) == (if o.ToUser? then 1 else 0) + (if o'.ToUser? then 1 else 0)
  {
    assert [o, o'][1..] == [o'];
    CountOne(o');
  }

  // ---------------------------------------------------------------- Idle

  /** With no state, a text that is neither a `/start` command, the debug
      button nor a menu button goes to the fallback, which clears the data. */
  lemma IdleOtherTextFallsBack(config: Config, s: Session, msg: Message, delivered: bool)
    requires s.state == Idle
    requires StartCommandFilter(config, msg.text) == Some(false) && msg.text != DebugButton
    requires !MenuMatches(config.menu, Strip(msg.text))
    ensures Step(config, s, msg, delivered) == Effect(Fresh, [ToUser(msg.user, Fallback)])
  {
    RouteToFallback(config, s.state, msg.text);
    StepOnFallback(config, s, msg, delivered);
  }

  /** The fallback's effect, given the route. Dafny needs no proof for it;
      the narrow requires keeps the filters out of the callers' proofs. */
  lemma StepOnFallback(config: Config, s: Session, msg: Message, delivered: bool)
    requires Route(config, s.state, msg.text) == OnFallback
    ensures Step(config, s, msg, delivered) == Effect(Fresh, [ToUser(msg.user, Fallback)])
  {
  }

  /** The route of a text nothing else claims. Dafny needs no proof for it;
      it is split from StepOnFallback to keep each proof small. */
  lemma RouteToFallback(config: Config, state: FormState, text: string)
    requires state == Idle
    requires StartCommandFilter(config, text) == Some(false) && text != DebugButton
    requires !MenuMatches(config.menu, Strip(text))
    ensures Route(config, state, text) == OnFallback
  {
  }

  /** With no state, a text that is neither a `/start` command nor the debug
      button starts an order exactly when its stripped form is a menu button. */
  lemma IdleSelectsOnlyMenuLabels(config: Config, s: Session, msg: Message, delivered: bool)
    requires s.state == Idle
    requires StartCommandFilter(config, msg.text) == Some(false) && msg.text != DebugButton
    ensures Step(config, s, msg, delivered).session.state == WaitingQuantity
            <==> MenuMatches(config.menu, Strip(msg.text))
  {
    var t := Strip(msg.text);
    if MenuMatches(config.menu, t) {
      SelectsFirstMatchingItem(config, s, msg, delivered, FirstMatch(config.menu, t).value);
    } else {
      IdleOtherTextFallsBack(config, s, msg, delivered);
    }
  }

  /** Item selection takes the first menu entry, in menu order, whose button
      reads the stripped text; the data is then exactly that item and its
      price, whatever the data was before. */
  lemma SelectsFirstMatchingItem(config: Config, s: Session, msg: Message, delivered: bool, i: nat)
    requires s.state == Idle
    requires StartCommandFilter(config, msg.text) == Some(false) && msg.text != DebugButton
    requires i < |config.menu| && EntryLabel(config.menu[i]) == Strip(msg.text)
    requires forall j :: 0 <= j < i ==> EntryLabel(config.menu[j]) != Strip(msg.text)
    ensures Step(config, s, msg, delivered)
            == Effect(Session(WaitingQuantity, Data(Some(config.menu[i].0), Some(config.menu[i].1), None, None)),
                      [ToUser(msg.user, QuantityPrompt(config.menu[i].0, config.menu[i].1))])
  {
    FirstMatchAt(config.menu, Strip(msg.text), i);
    RouteToStartOrder(config, s.state, msg.text);
    StepOnStartOrder(config, s, msg, delivered);
    SelectItemFound(config, s, msg, Some(i));
  }

  /** The route of a menu button text. Dafny needs no proof for it; it is
      split from StepOnStartOrder to keep each proof small. */
  lemma RouteToStartOrder(config: Config, state: FormState, text: string)
    requires state == Idle
    requires StartCommandFilter(config, text) == Some(false) && text != DebugButton
    requires MenuMatches(config.menu, Strip(text))
    ensures Route(config, state, text) == OnStartOrder
  {
  }

  /** start_order's effect, given the route. Dafny needs no proof for it;
      the narrow requires keeps the filters out of the callers' proofs. */
  lemma StepOnStartOrder(config: Config, s: Session, msg: Message, delivered: bool)
    requires Route(config, s.state, msg.text) == OnStartOrder
    ensures Step(config, s, msg, delivered) == SelectItem(config, s, msg)
  {
  }

  /** `/start` and the debug button only reply; state and data stay as they are. */
  lemma IdleCommandsKeepSession(config: Config, s: Session, msg: Message, delivered: bool)
    requires s.state == Idle
    requires StartCommandFilter(config, msg.text) == Some(true) || msg.text == DebugButton
    ensures Step(config, s, msg, delivered).session == s
    ensures |Step(config, s, msg, delivered).out| == 1 && Step(config, s, msg, delivered).out[0].ToUser?
  {
    if msg.text == DebugButton {
      var t := msg.text;
      assert WordAt(t, t[..1], 0) by { assert IsSpace(t[1]); }
      FirstWordCharacterised(t, t[..1], 0);
    }
  }

  /** With no state, any text the `/start` filter accepts gets the welcome,
      whatever the menu holds: "/start", "/START", "/start@<bot> now". */
  lemma IdleStartGreets(config: Config, s: Session, msg: Message, delivered: bool)
    requires s.state == Idle && StartCommandFilter(config, msg.text) == Some(true)
    ensures Step(config, s, msg, delivered) == Effect(s, [ToUser(msg.user, Welcome(CafeName(config)))])
  {
  }

  /** A menu name that is not blank at its start and does not begin with "/"
      gives a button that the `/start` filter rejects, that differs from the
      debug button and that is its own stripped form. */
  lemma LabelIsPlainText(config: Config, name: string, price: int)
    requires name != [] && !IsSpace(name[0]) && name[0] != '/'
    ensures StartCommandFilter(config, Label(name, price)) == Some(false)
    ensures Label(name, price) != DebugButton
    ensures Strip(Label(name, price)) == Label(name, price)
  {
    var l := Label(name, price);
    assert l[0] == name[0] && l[|l| - 1] == Rouble;
    assert !AllSpace(l);
    StripUnpadded(l);
  }

  /** Tapping the keyboard button of menu entry `i` (a row of MainMenu) with no
      state selects entry `i`. */
  lemma ButtonSelectsItem(config: Config, s: Session, user: UserId, username: Option<string>, delivered: bool, i: nat)
    requires DistinctNames(config.menu) && i < |config.menu|
    requires config.menu[i].0 != [] && !IsSpace(config.menu[i].0[0])
    requires StartCommandFilter(config, EntryLabel(config.menu[i])) == Some(false)
    requires s.state == Idle
    ensures Step(config, s, Message(user, username, EntryLabel(config.menu[i])), delivered)
            == Effect(Session(WaitingQuantity, Data(Some(config.menu[i].0), Some(config.menu[i].1), None, None)),
                      [ToUser(user, QuantityPrompt(config.menu[i].0, config.menu[i].1))])
  {
    var l := EntryLabel(config.menu[i]);
    assert l[0] == config.menu[i].0[0] && l[|l| - 1] == Rouble;
    StripUnpadded(l);
    assert l[|l| - 1] != DebugButton[|DebugButton| - 1];
    FirstMatchOfOwnLabel(config.menu, i);
    SelectsFirstMatchingItem(config, s, Message(user, username, l), delivered, i);
  }

  /** A name that begins with "/" but is not a `/start` command is ordered
      by its own button like any other: here "/menu". */
  lemma SlashNamedButtonSelects(price: int, user: UserId, delivered: bool)
    ensures var config := Config(None, None, Some(42), [("/menu", price)], "cafe_bot");
            Step(config, Fresh, Message(user, None, Label("/menu", price)), delivered)
            == Effect(Session(WaitingQuantity, Data(Some("/menu"), Some(price), None, None)),
                      [ToUser(user, QuantityPrompt("/menu", price))])
  {
    var config := Config(None, None, Some(42), [("/menu", price)], "cafe_bot");
    var text := Label("/menu", price);
    assert text[..5] == "/menu" && text[5] == ' ';
    assert WordAt(text, "/menu", 0);
    FirstWordCharacterised(text, "/menu", 0);
    assert Partition("menu", '@') == ("menu", "");
    assert !EqualIgnoringAsciiCase("menu", "start");
    assert StartCommandFilter(config, text) == Some(false);
    assert EntryLabel(config.menu[0]) == text;
    ButtonSelectsItem(config, Fresh, user, None, delivered, 0);
  }

  /** start_order compares the stripped text with the unstripped label, so
      the button of an entry whose name is empty or starts with whitespace
      never matches any text. */
  lemma PaddedNameNeverMatches(name: string, price: int, text: string)
    requires name == [] || IsSpace(name[0])
    ensures Strip(text) != Label(name, price)
  {
    assert IsSpace(Label(name, price)[0]);
  }

  /** Hence such an entry is never selected, whatever the customer sends. */
  lemma PaddedEntryNeverSelected(menu: seq<MenuEntry>, i: nat, text: string)
    requires i < |menu| && (menu[i].0 == [] || IsSpace(menu[i].0[0]))
    ensures FirstMatch(menu, Strip(text)) != Some(i)
  {
    PaddedNameNeverMatches(menu[i].0, menu[i].1, text);
  }

  /** Tapping the very button of an entry named " Tea" goes to the fallback. */
  lemma PaddedButtonFallsBack(price: int, user: UserId, delivered: bool)
    ensures var config := Config(None, None, Some(42), [(" Tea", price)], "cafe_bot");
            Step(config, Fresh, Message(user, None, Label(" Tea", price)), delivered)
            == Effect(Fresh, [ToUser(user, Fallback)])
  {
    var config := Config(None, None, Some(42), [(" Tea", price)], "cafe_bot");
    var text := Label(" Tea", price);
    assert text[1..4] == "Tea" && text[4] == ' ';
    assert WordAt(text, "Tea", 1);
    FirstWordCharacterised(text, "Tea", 1);
    assert text[0] != DebugButton[0];
    PaddedNameNeverMatches(" Tea", price, text);
    assert !MenuMatches(config.menu, Strip(text));
    IdleOtherTextFallsBack(config, Fresh, Message(user, None, text), delivered);
  }

  /** The button of an entry named "/start" is a `/start` command: it greets
      instead of starting an order. */
  lemma StartNamedButtonGreets(config: Config, s: Session, msg: Message, delivered: bool, price: int)
    requires s.state == Idle && msg.text == Label("/start", price)
    ensures Step(config, s, msg, delivered) == Effect(s, [ToUser(msg.user, Welcome(CafeName(config)))])
  {
    var text := msg.text;
    assert text[..6] == "/start" && text[6] == ' ';
    assert WordAt(text, "/start", 0);
    FirstWordCharacterised(text, "/start", 0);
    assert Partition("start", '@') == ("start", "");
    assert StartCommandFilter(config, text) == Some(true);
  }

  // ------------------------------------------------------ WaitingQuantity

  /** While waiting for the quantity, only the exact texts "1", "2" and "3+"
      are quantities; any other text but the cancel button re-prompts and
      changes nothing. */
  lemma InvalidQuantityReprompts(config: Config, s: Session, msg: Message, delivered: bool)
    requires s.state == WaitingQuantity
    requires msg.text != CancelButton && msg.text !in {"1", "2", "3+"}
    ensures Step(config, s, msg, delivered) == Effect(s, [ToUser(msg.user, Reprompt)])
  {
  }

  /** An accepted quantity is 1, 2 or 3; the item and price are kept, the
      total is price times quantity, and the dialogue waits for the
      confirmation. */
  lemma ValidQuantityComputesTotal(config: Config, s: Session, msg: Message, delivered: bool)
    requires WellFormed(config, s) && s.state == WaitingQuantity
    requires msg.text in {"1", "2", "3+"}
    ensures var q := if msg.text == "1" then 1 else if msg.text == "2" then 2 else 3;
            var price := s.data.price.value;
            Step(config, s, msg, delivered)
            == Effect(Session(WaitingConfirm, Data(s.data.item, s.data.price, Some(q), Some(price * q))),
                      [ToUser(msg.user, Summary(s.data.item.value, q, price * q))])
  {
  }

  // ------------------------------------------------------- cancellation

  /** The cancel button in either dialogue state drops the order: no state,
      no data, nothing sent to the admin. */
  lemma CancelResets(config: Config, s: Session, msg: Message, delivered: bool)
    requires s.state != Idle && msg.text == CancelButton
    ensures Step(config, s, msg, delivered) == Effect(Fresh, [ToUser(msg.user, Cancelled)])
    ensures AdminSends(Step(config, s, msg, delivered).out) == 0
  {
    CountOne(ToUser(msg.user, Cancelled));
  }

  // ------------------------------------------------------ WaitingConfirm

  /** Any other text while waiting for the confirmation places the order:
      with an admin chat configured, one notice carrying the item, quantity
      and the total computed at the quantity step goes to it, the customer is
      told the order was accepted, and the session is reset. */
  lemma ConfirmNotifiesAdmin(config: Config, s: Session, msg: Message, delivered: bool)
    requires WellFormed(config, s) && s.state == WaitingConfirm
    requires msg.text != CancelButton && AdminConfigured(config)
    ensures Step(config, s, msg, delivered)
            == Effect(Fresh,
                      [ToAdmin(config.adminChatId.value,
                               Notice(config.name, s.data.item.value, s.data.quantity.value,
                                      s.data.price.value * s.data.quantity.value,
                                      CustomerHandle(msg), msg.user, PhoneOf(config)),
                               delivered),
                       ToUser(msg.user, Accepted(PhoneOf(config)))])
    ensures AdminSends(Step(config, s, msg, delivered).out) == 1
  {
    var out := Step(config, s, msg, delivered).out;
    CountTwo(out[0], out[1]);
  }

  /** Without an admin chat id (absent or 0), confirming only reports a
      configuration error and resets the session. */
  lemma ConfirmWithoutAdmin(config: Config, s: Session, msg: Message, delivered: bool)
    requires s.state == WaitingConfirm && msg.text != CancelButton && !AdminConfigured(config)
    ensures Step(config, s, msg, delivered) == Effect(Fresh, [ToUser(msg.user, ConfigError)])
  {
  }

  /** Whether the admin send fails changes neither the session nor what the
      customer is told. */
  lemma DeliveryFailureIsInvisible(config: Config, s: Session, msg: Message)
    ensures Step(config, s, msg, true).session == Step(config, s, msg, false).session
    ensures |Step(config, s, msg, true).out| == |Step(config, s, msg, false).out|
    ensures forall k :: 0 <= k < |Step(config, s, msg, true).out| && Step(config, s, msg, true).out[k].ToUser?
              ==> Step(config, s, msg, false).out[k] == Step(config, s, msg, true).out[k]
  {
  }

  /** The admin chat is written to at most once per message, and only by a
      confirmation in the confirmation state with an admin chat configured. */
  lemma AdminSendsOnlyOnConfirm(config: Config, s: Session, msg: Message, delivered: bool)
    requires WellFormed(config, s)
    ensures AdminSends(Step(config, s, msg, delivered).out)
            == (if s.state == WaitingConfirm && msg.text != CancelButton && AdminConfigured(config) then 1 else 0)
  {
    if s.state == WaitingConfirm && msg.text != CancelButton && AdminConfigured(config) {
      ConfirmNotifiesAdmin(config, s, msg, delivered);
    } else {
      RepliesOnly(config, s, msg, delivered);
    }
  }

  /** Outside a confirmation with an admin chat, a step sends at most one
      message, a reply to the customer. */
  lemma RepliesOnly(config: Config, s: Session, msg: Message, delivered: bool)
    requires WellFormed(config, s)
    requires !(s.state == WaitingConfirm && msg.text != CancelButton && AdminConfigured(config))
    ensures AdminSends(Step(config, s, msg, delivered).out) == 0
  {
    var out := Step(config, s, msg, delivered).out;
    assert |out| <= 1 && (|out| == 1 ==> out == [out[0]] && out[0].ToUser?);
    if |out| == 1 {
      CountOne(out[0]);
    }
  }

  /** With the configuration that failed to load, no order reaches the admin. */
  lemma EmptyConfigSendsNoOrders(botUsername: string, s: Session, msg: Message, delivered: bool)
    requires WellFormed(EmptyConfig(botUsername), s)
    ensures s == Fresh
    ensures Step(EmptyConfig(botUsername), s, msg, delivered).session == Fresh
    ensures AdminSends(Step(EmptyConfig(botUsername), s, msg, delivered).out) == 0
  {
    AdminSendsOnlyOnConfirm(EmptyConfig(botUsername), s, msg, delivered);
  }

  // --------------------------------------------------------- invariants

  /** Every step keeps the session well formed. */
  lemma StepPreservesWellFormed(config: Config, s: Session, msg: Message, delivered: bool)
    requires WellFormed(config, s)
    ensures WellFormed(config, Step(config, s, msg, delivered).session)
  {
    match Route(config, s.state, msg.text)
    case OnStartOrder =>
      var i := FirstMatch(config.menu, Strip(msg.text)).value;
      assert config.menu[i] in config.menu;
    case _ =>
  }

  /** In a well-formed dialogue state every message is answered with exactly
      one reply: the KeyError paths of the handlers cannot be reached. */
  lemma DialogueAlwaysAnswers(config: Config, s: Session, msg: Message, delivered: bool)
    requires WellFormed(config, s) && s.state != Idle
    ensures UserReplies(Step(config, s, msg, delivered).out) == 1
  {
    var out := Step(config, s, msg, delivered).out;
    if |out| == 1 {
      assert out == [out[0]];
      CountOne(out[0]);
    } else {
      assert out == [out[0], out[1]];
      CountTwo(out[0], out[1]);
    }
  }

  // ----------------------------------------------------------- sequences

  /** Selecting item a, cancelling, then selecting item b leaves a draft of b
      alone: nothing of a survives. */
  lemma CancelThenReselect(config: Config, user: UserId, a: nat, b: nat, delivered: bool)
    requires DistinctNames(config.menu) && a < |config.menu| && b < |config.menu|
    requires config.menu[a].0 != [] && !IsSpace(config.menu[a].0[0])
    requires config.menu[b].0 != [] && !IsSpace(config.menu[b].0[0])
    requires StartCommandFilter(config, EntryLabel(config.menu[a])) == Some(false)
    requires StartCommandFilter(config, EntryLabel(config.menu[b])) == Some(false)
    ensures var s1 := Step(config, Fresh, Message(user, None, EntryLabel(config.menu[a])), delivered).session;
            var s2 := Step(config, s1, Message(user, None, CancelButton), delivered).session;
            var s3 := Step(config, s2, Message(user, None, EntryLabel(config.menu[b])), delivered).session;
            s3 == Session(WaitingQuantity, Data(Some(config.menu[b].0), Some(config.menu[b].1), None, None))
  {
    ButtonSelectsItem(config, Fresh, user, None, delivered, a);
    var s1 := Step(config, Fresh, Message(user, None, EntryLabel(config.menu[a])), delivered).session;
    CancelResets(config, s1, Message(user, None, CancelButton), delivered);
    ButtonSelectsItem(config, Fresh, user, None, delivered, b);
  }

  /** One coffee order end to end: "Coffee — 200₽", then "2", then the
      confirm button sends the admin a notice of 2 × Coffee for 400 and tells
      the customer the order was accepted. */
  lemma CoffeeOrder(user: UserId, delivered: bool)
    ensures var config := Config(None, None, Some(42), [("Coffee", 200)], "cafe_bot");
            var s1 := Step(config, Fresh, Message(user, Some("ann"), "Coffee — 200₽"), delivered).session;
            var s2 := Step(config, s1, Message(user, Some("ann"), "2"), delivered).session;
            var e3 := Step(config, s2, Message(user, Some("ann"), "✅ Подтвердить"), delivered);
            e3.session == Fresh
            && e3.out == [ToAdmin(42, Notice(None, "Coffee", 2, 400, "ann", user, DefaultPhone), delivered),
                          ToUser(user, Accepted(DefaultPhone))]
  {
    var config := Config(None, None, Some(42), [("Coffee", 200)], "cafe_bot");
    assert NatToString(200) == "200" by {
      assert NatToString(20) == "20" by { assert NatToString(2) == "2"; }
    }
    assert EntryLabel(config.menu[0]) == "Coffee — 200₽";
    LabelIsPlainText(config, "Coffee", 200);
    ButtonSelectsItem(config, Fresh, user, Some("ann"), delivered, 0);
    var s1 := Session(WaitingQuantity, Data(Some("Coffee"), Some(200), None, None));
    assert WellFormed(config, s1);
    ValidQuantityComputesTotal(config, s1, Message(user, Some("ann"), "2"), delivered);
    var s2 := Session(WaitingConfirm, Data(Some("Coffee"), Some(200), Some(2), Some(400)));
    assert WellFormed(config, s2);
    ConfirmNotifiesAdmin(config, s2, Message(user, Some("ann"), "✅ Подтвердить"), delivered);
  }

  // ----------------------------------------------------------- isolation

  /** Handling messages one after the other, in arrival order. */
  function Run(config: Config, store: map<UserId, Session>, ms: seq<(Message, bool)>): map<UserId, Session>
    decreases |ms|
  {
    if ms == [] then store else Run(config, Deliver(config, store, ms[0]), ms[1..])
  }

  /** The messages of one user, in order. */
  function From(ms: seq<(Message, bool)>, user: UserId): seq<(Message, bool)> {
    if ms == [] then []
    else (if ms[0].0.user == user then [ms[0]] else []) + From(ms[1..], user)
  }

  /** A user's session after any interleaving of messages from many users is
      the session that user's own messages alone produce. */
  lemma {:induction false} SessionsAreIsolated(config: Config, store: map<UserId, Session>, store': map<UserId, Session>,
                                               ms: seq<(Message, bool)>, user: UserId)
    requires SessionIn(store, user) == SessionIn(store', user)
    ensures SessionIn(Run(config, store, ms), user) == SessionIn(Run(config, store', From(ms, user)), user)
    decreases |ms|
  {
    if ms != [] {
      var next := Deliver(config, store, ms[0]);
      if ms[0].0.user == user {
        assert From(ms, user) == [ms[0]] + From(ms[1..], user);
        var next' := Deliver(config, store', ms[0]);
        assert ([ms[0]] + From(ms[1..], user))[1..] == From(ms[1..], user);
        SessionsAreIsolated(config, next, next', ms[1..], user);
      } else {
        assert From(ms, user) == From(ms[1..], user);
        SessionsAreIsolated(config, next, store', ms[1..], user);
      }
    }
  }
}
