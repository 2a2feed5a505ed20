# Café order bot: the order dialogue

A model of the per-user order dialogue of the café Telegram bot in `main.py`,
an aiogram 2 bot. A customer taps a menu button `"{name} — {price}₽"`, picks
a quantity from `1`, `2` and `3+`, and confirms; the bot then sends the order
to the admin chat and tells the customer it was accepted. The cancel button
`❌ Отмена` drops the order at either step.

The project has six modules:

- `Wrappers` (wrappers.dfy): `Option`.
- `Text` (text.dfy): the Python string operations the handlers use.
  - `str.isspace`, `strip`, `split()[0]` and `partition`.
  - ASCII case-insensitive comparison.
  - `str(int)`, with a round trip through `ParseNat`, which makes menu labels
    injective.
- `Menu` (menu.dfy):
  - the configuration;
  - the button label;
  - the main keyboard (`get_main_menu`);
  - `start_order`'s search of the menu.
- `Dialogue` (dialogue.dfy): the dialogue as a pure step function.
  - The session is the aiogram FSM state (none, `waiting_quantity`,
    `waiting_confirm`) plus the data dict (`item`, `price`, `quantity`,
    `total`, each possibly absent).
  - `Route` picks the handler as aiogram 2 does. The state filter comes
    first. Handlers registered without `state=` fire only for a user with no
    state, in registration order: `/start`, the debug button, a menu button,
    the fallback.
  - `Step` gives the new session and the sends (replies to the customer as
    tags, and attempted sends to the admin chat).
- `Properties` (properties.dfy): what the dialogue promises, proved of
  `Step`, and isolation of users over any interleaving of messages.
- `Bot` (bot.dfy): class `OrderBot`, holding:
  - MemoryStorage as a map from user to session;
  - the outbox of everything sent.

  Its handler methods make the source's storage updates one after the other:
  `finish`, `update_data` and `set`. Each handler is proved to produce
  exactly the effect of its `Dialogue` function. `HandleMessage` keeps every
  stored session well formed, on the condition that replies to the customer
  are delivered (see "Left out").

The model follows the source where a reader might expect otherwise:

- Only the texts `1`, `2` and `3+` are quantities, so the bound is 3.
- In the confirmation state, any text except the cancel button confirms.
  Nothing re-prompts there.
- Because the state filter comes first, a menu button tapped mid-dialogue is
  an invalid quantity (or a confirmation); it does not restart the order.
- An unrecognised text with no state resets the session through the fallback.

Two behaviours of the source that the model keeps and proves:

- `start_order` compares the stripped text with the label as it stands. A
  menu entry whose name is empty or begins with whitespace can therefore never
  be ordered, not even by tapping its own button.
- The button of an entry whose first word is a `/start` command (`/start`,
  `/START`, `/start@` followed by the bot's name) is taken by the `start`
  handler, so it greets instead of starting an order. Other names beginning
  with `/`, such as `/menu`, are ordered normally.

The lemmas about tapping a button therefore assume that the entry's name is
non-empty, does not begin with whitespace, and that its button text is not a
`/start` command.

## Model

Three helpers have no row of their own and are covered by the rows that use
them: `Menu.MenuMatches` (the `any(...)` filter, main.py:89) by
`Menu.FirstMatch` and `Properties.IdleSelectsOnlyMenuLabels`;
`Dialogue.AdminConfigured` (`not admin_id`, main.py:168) by
`Properties.ConfirmWithoutAdmin` and `Properties.ConfirmNotifiesAdmin`;
`Dialogue.CustomerHandle` (the `@username or id` of main.py:181) by
`Properties.ConfirmNotifiesAdmin`.

| member | source | states |
|---|---|---|
| Menu.MainMenu | main.py:40-47 | one keyboard row per menu entry, in menu order, reading `"{name} — {price}₽"`, then the booking, help and debug rows |
| Menu.LabelInjective | main.py:43 | two entries with the same button text have the same name and price |
| Menu.FirstMatch | main.py:93-94 | the entry found is a match, no earlier entry matches, and there is one exactly when some button reads the text |
| Menu.FindEntry | main.py:93-94 | the loop over the menu stops at the first entry whose label equals the text, or finds none |
| Menu.FirstMatchOfOwnLabel | main.py:89-94 | with distinct names, the text of entry i's button selects entry i |
| Text.Strip | main.py:89 | `strip()` removes only whitespace, from both ends, and leaves none at either end |
| Text.StripCharacterised | main.py:89 | any whitespace trimming that leaves no whitespace at either end is `strip()` |
| Text.FirstWord | main.py:59 | `split()[0]` is missing (IndexError) exactly on all-whitespace text; otherwise it is a non-empty piece of `s` without whitespace, preceded only by whitespace and followed by whitespace or the end |
| Text.FirstWordCharacterised | main.py:59 | any such piece of `s` is `split()[0]`, so the word is unique |
| Text.Partition | main.py:59 | `partition('@')`: the head has no `@`, and head, `@`, tail rebuild the text when it has one |
| Text.ParseNatToString | main.py:43 | reading back the decimal digits of `str(n)` gives n |
| Text.IntToStringInjective | main.py:43 | different prices print differently |
| Dialogue.StartCommandFilter | main.py:59 | the `/start` command filter raises exactly on non-empty all-whitespace text |
| Dialogue.Route | main.py:59-208 | a waiting state goes to its own handler whatever the text; with no state, an order starts exactly when the text is not `/start`, not the debug button, and its stripped form is a menu button |
| Dialogue.WellFormed | main.py:89-208 | a condition every session the handlers produce meets (it also admits drafts of entries that cannot be selected); StepPreservesWellFormed proves every step keeps it |
| Dialogue.SelectItem | main.py:90-111 | start_order as a function; SelectsFirstMatchingItem and PaddedEntryNeverSelected state its behaviour, and StartOrder is proved equal to it |
| Dialogue.TakeQuantity | main.py:114-146 | process_quantity as a function; InvalidQuantityReprompts, ValidQuantityComputesTotal and CancelResets state its behaviour, and ProcessQuantity is proved equal to it |
| Dialogue.Confirm | main.py:150-201 | confirm_order as a function; ConfirmNotifiesAdmin, ConfirmWithoutAdmin, CancelResets and DeliveryFailureIsInvisible state its behaviour, and ConfirmOrder is proved equal to it |
| Dialogue.Handle | main.py:59-208 | each handler's effect; RunHandler is proved equal to it |
| Dialogue.Step | main.py:59-208 | the handler Route picks, then its effect; the Properties lemmas state its behaviour, and HandleMessage is proved equal to it |
| Menu.Label | main.py:43 | the f-string `"{item} — {price}₽"`; LabelInjective and LabelIsPlainText state its properties |
| Dialogue.QuantityOf | main.py:123-128 | exactly `1`, `2` and `3+` are quantities, and they map into 1..3 |
| Properties.SelectsFirstMatchingItem | main.py:89-111 | selection takes the first matching entry and the data becomes exactly its item and price, whatever it was before |
| Properties.IdleSelectsOnlyMenuLabels | main.py:89-111 | with no state, a plain text starts an order if and only if its stripped form is a menu button |
| Properties.LabelIsPlainText | main.py:43-89 | for a name that is non-empty and begins with neither whitespace nor `/`, the label is not a `/start` command, not the debug button, and is its own `strip()` |
| Properties.ButtonSelectsItem | main.py:40-111 | with distinct names, and for an entry whose name is non-empty, does not begin with whitespace and whose button text is not a `/start` command, tapping entry i's button with no state selects entry i and asks for the quantity |
| Properties.SlashNamedButtonSelects | main.py:89-111 | with the menu `[("/menu", p)]`, tapping its button with no state starts an order for `/menu` |
| Properties.IdleStartGreets | main.py:59-66 | with no state, any text the `/start` filter accepts gets exactly the welcome with the café name, and the session is kept |
| Properties.PaddedNameNeverMatches | main.py:89-94 | the label of a name that is empty or begins with whitespace is never the `strip()` of any text |
| Properties.PaddedEntryNeverSelected | main.py:89-94 | such an entry is never the one start_order selects, whatever the text |
| Properties.PaddedButtonFallsBack | main.py:89-208 | with the menu `[(" Tea", p)]`, tapping the exact button text goes to the fallback |
| Properties.StartNamedButtonGreets | main.py:59-66 | with no state, the button text of an entry named `/start` gets the welcome and leaves the session unchanged |
| Properties.IdleCommandsKeepSession | main.py:59-86 | `/start` and the debug button send one reply and leave state and data as they were |
| Properties.IdleOtherTextFallsBack | main.py:204-208 | any other text with no state clears the data and points at the menu |
| Properties.InvalidQuantityReprompts | main.py:117-126 | while waiting for the quantity, any text but `1`, `2`, `3+` and cancel re-prompts and changes nothing |
| Properties.ValidQuantityComputesTotal | main.py:123-146 | a quantity keeps item and price, sets the total to price × quantity, and waits for the confirmation |
| Properties.CancelResets | main.py:117-158 | cancel in either waiting state resets to no state and no data, with no admin send |
| Properties.ConfirmNotifiesAdmin | main.py:154-200 | confirming sends one notice with the item, quantity and total of the draft, tells the customer it was accepted, and resets the session |
| Properties.ConfirmWithoutAdmin | main.py:163-172 | with no admin chat id, or id 0, confirming only reports a configuration error and resets the session |
| Properties.DeliveryFailureIsInvisible | main.py:186-199 | a failing admin send changes neither the session nor the customer's replies |
| Properties.AdminSendsOnlyOnConfirm | main.py:149-200 | at most one admin send per message, and exactly one when confirming with an admin chat configured |
| Properties.EmptyConfigSendsNoOrders | main.py:19-28 | with the configuration that failed to load, no session leaves the start state and no order reaches the admin |
| Properties.StepPreservesWellFormed | main.py:89-208 | every step keeps the session well formed: while waiting, the draft is a menu entry, and the total is price × quantity |
| Properties.DialogueAlwaysAnswers | main.py:113-200 | in a well-formed waiting state every message gets exactly one reply, since the KeyError paths cannot be reached |
| Properties.CancelThenReselect | main.py:89-121 | with distinct names that are non-empty, do not begin with whitespace, and whose button texts are not `/start` commands: select, cancel, select again, and the draft holds only the second item |
| Properties.CoffeeOrder | main.py:89-200 | the coffee order end to end: "Coffee — 200₽", "2", confirm gives the admin 2 × Coffee for 400 |
| Properties.SessionsAreIsolated | main.py:37-38 | after any interleaving of messages, a user's session is what that user's own messages alone produce |
| Bot.OrderBot.Resolve | main.py:37 | MemoryStorage gives a user seen for the first time no state and no data; others keep theirs |
| Bot.OrderBot.SendToAdmin | main.py:188 | `bot.send_message(admin_id, …)`: one attempted send to the admin chat is added to the outbox, with whether it was delivered |
| Bot.OrderBot.Finish | main.py:96 | `state.finish()`: no state and no data for the user, nothing else changes |
| Bot.OrderBot.UpdateData | main.py:97 | `state.update_data(...)`: the given keys overwrite, the others and the state are kept |
| Bot.OrderBot.SetState | main.py:110 | `OrderForm.<state>.set()`: the state changes and the data is kept |
| Bot.OrderBot.constructor | main.py:37 | empty storage, nothing sent, every session well formed |
| Bot.OrderBot.Start | main.py:59-66 | the welcome reply with the café name (or the default) |
| Bot.OrderBot.DebugInfo | main.py:69-86 | a report of the user's state and data, no change |
| Bot.OrderBot.StartOrder | main.py:90-111 | the storage and the outbox change exactly as `SelectItem` says |
| Bot.OrderBot.TakeEntry | main.py:96-110 | after `finish`, `update_data` and `set`, the data is exactly the entry's item and price, and the user is waiting for the quantity |
| Bot.OrderBot.ProcessQuantity | main.py:114-146 | the storage and the outbox change exactly as `TakeQuantity` says |
| Bot.OrderBot.ConfirmOrder | main.py:150-201 | the storage and the outbox change exactly as `Confirm` says |
| Bot.OrderBot.Fallback | main.py:205-208 | the data is cleared and one fallback reply is sent |
| Bot.OrderBot.Dispatch | main.py:59-208 | the handler aiogram picks runs, and the effect is `Step`'s |
| Bot.OrderBot.HandleMessage | main.py:37-208 | only the sender's session changes, as `Step` says; every stored session stays well formed |

## Left out

- The aiogram framework (`Bot`, `Dispatcher`, `executor`), the webhook and
  start-up. Handling a message is a method call, and sending is appending to
  the outbox.
- Loading `config.json` and the environment (`load_dotenv`, the token). The
  configuration is a parameter, and every key of it may be absent. This is
  more general than `load_config`: a configuration that loads always has
  `admin_chat_id` (a missing key makes it return `{}`). So with a non-empty
  menu, only an id of 0 can make the admin chat unconfigured.
- Logging, the Markdown text of replies and notices, and keyboard markup.
  - Replies are tags that carry the values they show.
  - The debug report carries the session only.
- The random compliment in the quantity prompt.
- `BookingForm` and the booking and help buttons. They have no handlers, so
  with no state they reach the fallback, as modelled.
- MemoryStorage keys by chat and user. The model keys by user, which is the
  same thing in a private chat.
- Python's Unicode `lower()`. The `/start` filter compares case-insensitively
  on ASCII letters only.
- Non-integer prices. Prices are integers, and `str(price)` is decimal
  notation.
- The bot's own username behind the command filter comes from a network call
  (`bot.me`). It is the `botUsername` field of the configuration.
- The admin send's exception. Whether Telegram accepted the send is the
  `adminDelivers` parameter, recorded on the outbox entry.
- Bot.OrderBot.Reply: a reply to the customer is modelled as always
  delivered. In the source, an exception from `message.reply` ends the
  handler where it stands, and the steps after it are skipped:
  - In `confirm_order`, a failing reply after the admin send skips
    `state.finish()`. The user then stays in `waiting_confirm` with the full
    draft, and their next text sends the admin the same order again.
  - In `start_order`, a failing reply leaves the item and price in the data
    with no state, which is not a `WellFormed` session.
  StepPreservesWellFormed and HandleMessage's `Valid()` rest on this
  assumption.
- Concurrency between updates. Messages are handled one at a time, in arrival
  order.
