/** The running bot: aiogram's MemoryStorage (the per-user FSM state and
    data), the messages sent so far, and the handlers of main.py performing
    their storage updates and sends one after the other. Each handler is
    proved to do what the matching function of module Dialogue says, and
    handling a message keeps every stored session well formed. */
module Bot {
  import opened Wrappers
  import opened Text
  import opened Menu
  import opened Dialogue
  import Properties

  class OrderBot {
    const config: Config
    /** MemoryStorage: the FSM state and data of each user seen so far. */
    var sessions: map<UserId, Session>
    /** Everything sent so far: replies to users and sends to the admin chat. */
    var outbox: seq<Outgoing>

    ghost predicate Valid()
      reads this
    {
      forall u :: u in sessions ==> WellFormed(config, sessions[u])
    }

    constructor(config: Config)
      ensures this.config == config && sessions == map[] && outbox == []
      ensures Valid()
    {
      this.config := config;
      sessions := map[];
      outbox := [];
    }

    // ------------------------------------------ FSMContext over MemoryStorage

    /** MemoryStorage creates a user's record, with no state and no data, the
        first time the user is looked up. */
    method Resolve(user: UserId)
      modifies this`sessions
      ensures sessions == old(sessions)[user := SessionIn(old(sessions), user)]
    {
      if user !in sessions {
        sessions := sessions[user := Fresh];
      }
    }

    /** `state.finish()`: no state, empty data. */
    method Finish(user: UserId)
      modifies this`sessions
      ensures sessions == old(sessions)[user := Fresh]
    {
      sessions := sessions[user := Fresh];
    }

    /** `state.update_data(...)`: merge the given keys into the data. */
    method UpdateData(user: UserId, patch: Data)
      requires user in sessions
      modifies this`sessions
      ensures sessions == old(sessions)[user := Session(old(sessions[user]).state, Merge(old(sessions[user]).data, patch))]
    {
      var s := sessions[user];
      sessions := sessions[user := Session(s.state, Merge(s.data, patch))];
    }

    /** `OrderForm.<state>.set()`: change the state, keep the data. */
    method SetState(user: UserId, state: FormState)
      requires user in sessions
      modifies this`sessions
      ensures sessions == old(sessions)[user := old(sessions[user]).(state := state)]
    {
      sessions := sessions[user := sessions[user].(state := state)];
    }

    /** `message.reply(...)`. */
    method Reply(user: UserId, reply: Dialogue.Reply)
      modifies this`outbox
      ensures outbox == old(outbox) + [ToUser(user, reply)]
    {
      outbox := outbox + [ToUser(user, reply)];
    }

    /** `bot.send_message(admin_id, ...)`, which Telegram may refuse. */
    method SendToAdmin(chat: int, notice: Notice, delivered: bool)
      modifies this`outbox
      ensures outbox == old(outbox) + [ToAdmin(chat, notice, delivered)]
    {
      outbox := outbox + [ToAdmin(chat, notice, delivered)];
    }

    // ------------------------------------------------------------- handlers

    /** start: greet with the café name. */
    method Start(msg: Message)
      modifies this`outbox
      ensures outbox == old(outbox) + [ToUser(msg.user, Welcome(CafeName(config)))]
    {
      var name := if config.name.Some? then config.name.value else DefaultCafeName;
      Reply(msg.user, Welcome(name));
    }

    /** debug_info: report the user's state and data. */
    method DebugInfo(msg: Message)
      requires msg.user in sessions
      modifies this`outbox
      ensures outbox == old(outbox) + [ToUser(msg.user, DebugReport(sessions[msg.user]))]
    {
      var s := sessions[msg.user];
      Reply(msg.user, DebugReport(s));
    }

    /** start_order: take the first menu entry whose button reads the
        stripped text. */
    method StartOrder(msg: Message)
      requires msg.user in sessions
      modifies this
      ensures sessions == old(sessions)[msg.user := SelectItem(config, old(sessions[msg.user]), msg).session]
      ensures outbox == old(outbox) + SelectItem(config, old(sessions[msg.user]), msg).out
    {
      var found := FindEntry(config.menu, Strip(msg.text));
      SelectItemFound(config, sessions[msg.user], msg, found);
      if found.Some? {
        TakeEntry(msg.user, found.value);
      }
    }

    /** The body of start_order's loop once it has found entry `i`: replace
        the data by the entry's item and price, ask for the quantity. */
    method TakeEntry(user: UserId, i: nat)
      requires user in sessions && i < |config.menu|
      modifies this
      ensures sessions == old(sessions)[user := Session(WaitingQuantity, Data(Some(config.menu[i].0), Some(config.menu[i].1), None, None))]
      ensures outbox == old(outbox) + [ToUser(user, QuantityPrompt(config.menu[i].0, config.menu[i].1))]
    {
      var item, price := config.menu[i].0, config.menu[i].1;
      Finish(user);
      UpdateData(user, Data(Some(item), Some(price), None, None));
      Reply(user, QuantityPrompt(item, price));
      SetState(user, WaitingQuantity);
    }

    /** process_quantity: cancel, re-prompt, or record quantity and total and
        ask for the confirmation. */
    method ProcessQuantity(msg: Message)
      requires msg.user in sessions
      modifies this
      ensures sessions == old(sessions)[msg.user := TakeQuantity(old(sessions[msg.user]), msg).session]
      ensures outbox == old(outbox) + TakeQuantity(old(sessions[msg.user]), msg).out
    {
      var user := msg.user;
      if msg.text == CancelButton {
        Finish(user);
        Reply(user, Cancelled);
        return;
      }
      var qty := if msg.text == "1" then Some(1) else if msg.text == "2" then Some(2)
                 else if msg.text == "3+" then Some(3) else None;
      if qty.None? {
        Reply(user, Reprompt);
        return;
      }
      var data := sessions[user].data;
      if data.price.None? {
        return;  // KeyError on data["price"]
      }
      var total := data.price.value * qty.value;
      UpdateData(user, Data(None, None, qty, Some(total)));
      if data.item.None? {
        return;  // KeyError on data['item'] while writing the summary
      }
      Reply(user, Summary(data.item.value, qty.value, total));
      SetState(user, WaitingConfirm);
    }

    /** confirm_order: cancel, or send the order to the admin chat (if one is
        configured) and tell the customer it was accepted. */
    method ConfirmOrder(msg: Message, adminDelivers: bool)
      requires msg.user in sessions
      modifies this
      ensures sessions == old(sessions)[msg.user := Confirm(config, old(sessions[msg.user]), msg, adminDelivers).session]
      ensures outbox == old(outbox) + Confirm(config, old(sessions[msg.user]), msg, adminDelivers).out
    {
      var user := msg.user;
      if msg.text == CancelButton {
        Finish(user);
        Reply(user, Cancelled);
        return;
      }
      var data := sessions[user].data;
      var adminId := config.adminChatId;
      if adminId.None? || adminId.value == 0 {
        Reply(user, ConfigError);
        Finish(user);
        return;
      }
      if data.item.None? || data.quantity.None? || data.total.None? {
        return;  // KeyError while writing the order message
      }
      var customer := if msg.username.Some? && msg.username.value != [] then msg.username.value
                      else IntToString(user);
      var phone := if config.phone.Some? then config.phone.value else DefaultPhone;
      var notice := Notice(config.name, data.item.value, data.quantity.value, data.total.value, customer, user, phone);
      SendToAdmin(adminId.value, notice, adminDelivers);
      Reply(user, Accepted(phone));
      Finish(user);
    }

    /** fallback: forget the data and point at the menu. */
    method Fallback(msg: Message)
      modifies this
      ensures sessions == old(sessions)[msg.user := Fresh]
      ensures outbox == old(outbox) + [ToUser(msg.user, Dialogue.Fallback)]
    {
      Finish(msg.user);
      Reply(msg.user, Dialogue.Fallback);
    }

    // ----------------------------------------------------------- dispatcher

    /** One text message: look the user up, pick the handler as aiogram 2
        does and run it. Only the sender's session changes. */
    method HandleMessage(msg: Message, adminDelivers: bool)
      requires Valid()
      modifies this
      ensures Valid()
      ensures sessions == Deliver(config, old(sessions), (msg, adminDelivers))
      ensures outbox == old(outbox) + Step(config, SessionIn(old(sessions), msg.user), msg, adminDelivers).out
    {
      Resolve(msg.user);
      ghost var s := sessions[msg.user];
      Dispatch(msg, adminDelivers);
      Properties.StepPreservesWellFormed(config, s, msg, adminDelivers);
    }

    /** Run the handler aiogram 2 picks for the message (see Route). */
    method Dispatch(msg: Message, adminDelivers: bool)
      requires msg.user in sessions
      modifies this
      ensures sessions == old(sessions)[msg.user := Step(config, old(sessions[msg.user]), msg, adminDelivers).session]
      ensures outbox == old(outbox) + Step(config, old(sessions[msg.user]), msg, adminDelivers).out
    {
      var h := Route(config, sessions[msg.user].state, msg.text);
      RunHandler(h, msg, adminDelivers);
    }

    /** Run handler `h` on the message. */
    method RunHandler(h: Handler, msg: Message, adminDelivers: bool)
      requires msg.user in sessions
      modifies this
      ensures sessions == old(sessions)[msg.user := Handle(config, h, old(sessions[msg.user]), msg, adminDelivers).session]
      ensures outbox == old(outbox) + Handle(config, h, old(sessions[msg.user]), msg, adminDelivers).out
    {
      match h
      case Unhandled =>  // the command filter raised: no handler runs
      case OnStart => Start(msg);
      case OnDebugInfo => DebugInfo(msg);
      case OnStartOrder => StartOrder(msg);
      case OnQuantity => ProcessQuantity(msg);
      case OnConfirm => ConfirmOrder(msg, adminDelivers);
      case OnFallback => Fallback(msg);
    }
  }
}
