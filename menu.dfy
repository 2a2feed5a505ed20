/** The café's configuration and its main keyboard: the menu buttons labelled
    "{name} — {price}₽" (main.py:40-47) and how a text is matched against them
    (main.py:89-94). */
module Menu {
  import opened Wrappers
  import opened Text

  /** A menu entry: item name and its price in roubles, in the order the
      configuration lists them. */
  type MenuEntry = (string, int)

  /** The loaded configuration, as far as the dialogue reads it. Every key is
      optional: a configuration that failed to load is `{}`, with no name,
      phone or admin chat and an empty menu. `botUsername` is not read from the
      configuration: it is the bot's own username as Telegram reports it, which
      the `/start` command filter compares a `@mention` with. */
  datatype Config = Config(
    name: Option<string>,
    phone: Option<string>,
    adminChatId: Option<int>,
    menu: seq<MenuEntry>,
    botUsername: string)

  /** The configuration that failed to load (`load_config` returned `{}`). */
  function EmptyConfig(botUsername: string): Config {
    Config(None, None, None, [], botUsername)
  }

  /** Menu names are the keys of a JSON object, hence distinct. */
  predicate DistinctNames(menu: seq<MenuEntry>) {
    forall i, j :: 0 <= i < j < |menu| ==> menu[i].0 != menu[j].0
  }

  const BookingButton := "📋 Бронь столика"
  const HelpButton := "❓ Помощь"
  const DebugButton := "🔍 DEBUG INFO"

  /** The separator " — " (an em dash between two spaces) and the rouble sign. */
  const Dash := '\U{2014}'
  const Rouble := '\U{20BD}'

  /** The text of the button for a menu entry: `f"{item} — {price}₽"`. */
  function Label(name: string, price: int): string {
    name + [' ', Dash, ' '] + IntToString(price) + [Rouble]
  }

  function EntryLabel(e: MenuEntry): string {
    Label(e.0, e.1)
  }

  /** The em dash after the name is the last one in the label: the price
      cannot contain one. */
  lemma LastDash(name: string, price: int)
    ensures Label(name, price)[|name| + 1] == Dash
    ensures forall k :: |name| + 1 < k < |Label(name, price)| ==> Label(name, price)[k] != Dash
  {
    var d := IntToString(price);
    var l := Label(name, price);
    assert forall k :: |name| + 3 <= k < |l| - 1 ==> l[k] == d[k - |name| - 3];
  }

  /** Two menu entries with the same button text have the same name and price,
      so a button text identifies its entry. */
  lemma LabelInjective(n1: string, p1: int, n2: string, p2: int)
    requires Label(n1, p1) == Label(n2, p2)
    ensures n1 == n2 && p1 == p2
  {
    var l := Label(n1, p1);
    LastDash(n1, p1);
    LastDash(n2, p2);
    assert |n1| == |n2|;
    assert n1 == l[..|n1|] == n2;
    assert IntToString(p1) == l[|n1| + 3..|l| - 1] == IntToString(p2);
    IntToStringInjective(p1, p2);
  }

  /** The `any(...)` filter of start_order: some menu button reads `t`. */
  predicate MenuMatches(menu: seq<MenuEntry>, t: string) {
    exists i :: 0 <= i < |menu| && EntryLabel(menu[i]) == t
  }

  /** The entry start_order's loop stops at: the first in menu order whose
      button reads `t`, or None when no button does. */
  function FirstMatch(menu: seq<MenuEntry>, t: string): (r: Option<nat>)
    ensures r.Some? <==> MenuMatches(menu, t)
    ensures r.Some? ==> r.value < |menu| && EntryLabel(menu[r.value]) == t
    ensures r.Some? ==> forall j :: 0 <= j < r.value ==> EntryLabel(menu[j]) != t
  {
    if menu == [] then None
    else if EntryLabel(menu[0]) == t then Some(0)
    else
      match FirstMatch(menu[1..], t)
      case None => None
      case Some(k) => Some(k + 1)
  }

  /** The entry a left-to-right search stops at is the first match. */
  lemma FirstMatchAt(menu: seq<MenuEntry>, t: string, i: nat)
    requires i < |menu| && EntryLabel(menu[i]) == t
    requires forall j :: 0 <= j < i ==> EntryLabel(menu[j]) != t
    ensures FirstMatch(menu, t) == Some(i)
  {
  }

  /** The loop of start_order: walk the menu in order and stop at the first
      entry whose button reads `t`. */
  method FindEntry(menu: seq<MenuEntry>, t: string) returns (found: Option<nat>)
    ensures found == FirstMatch(menu, t)
  {
    var i := 0;
    while i < |menu|
      invariant 0 <= i <= |menu|
      invariant forall j :: 0 <= j < i ==> EntryLabel(menu[j]) != t
    {
      var (item, price) := menu[i];
      if Label(item, price) == t {
        FirstMatchAt(menu, t, i);
        return Some(i);
      }
      i := i + 1;
    }
    return None;
  }

  /** With distinct names, the first matching entry is the only one, so tapping
      the button of entry `i` selects entry `i`. */
  lemma FirstMatchOfOwnLabel(menu: seq<MenuEntry>, i: nat)
    requires DistinctNames(menu) && i < |menu|
    ensures FirstMatch(menu, EntryLabel(menu[i])) == Some(i)
  {
    var t := EntryLabel(menu[i]);
    assert MenuMatches(menu, t);
    var k := FirstMatch(menu, t).value;
    assert EntryLabel(menu[k]) == t;
    LabelInjective(menu[k].0, menu[k].1, menu[i].0, menu[i].1);
    assert menu[k].0 == menu[i].0;
    assert !(k < i) && !(i < k);
  }

  /** get_main_menu: one keyboard row per `menu.add` call, first a button per
      menu entry in menu order, then the booking, help and debug buttons. */
  method MainMenu(config: Config) returns (keyboard: seq<seq<string>>)
    ensures |keyboard| == |config.menu| + 3
    ensures forall i :: 0 <= i < |config.menu| ==> keyboard[i] == [EntryLabel(config.menu[i])]
    ensures keyboard[|config.menu|..] == [[BookingButton], [HelpButton], [DebugButton]]
  {
    keyboard := [];
    for i := 0 to |config.menu|
      invariant |keyboard| == i
      invariant forall j :: 0 <= j < i ==> keyboard[j] == [EntryLabel(config.menu[j])]
    {
      var (item, price) := config.menu[i];
      keyboard := keyboard + [[Label(item, price)]];
    }
    keyboard := keyboard + [[BookingButton]];
    keyboard := keyboard + [[HelpButton]];
    keyboard := keyboard + [[DebugButton]];
  }
}
