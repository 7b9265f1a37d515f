/**
 * The bot list of the settings page (`BotSection`): submitting the form
 * replaces the edited bot or appends a new one, deleting removes every bot
 * with the chosen name. Each handler builds a new list, puts it into the
 * shared bot context and saves the same list to local storage.
 */
module BotSection {
  import opened Wrappers
  import opened Lists
  import opened SharedTypes

  /** The list after the form is submitted: the edited bot's slot replaced, or the new bot appended. */
  function SubmitBot(bots: seq<BotConfig>, selected: Option<BotConfig>, bot: BotConfig): (r: seq<BotConfig>)
    ensures |r| == |bots| + (if selected.None? then 1 else 0)
    ensures selected.None? || Contains(bots, BotName, selected.value.name) ==> bot in r
    ensures forall b :: b in r ==> b in bots || b == bot
  {
    match selected
    case Some(original) =>
      var idx := IndexOf(bots, BotName, original.name);
      if idx == -1 then bots
      else
        assert bots[idx := bot][idx] == bot;
        bots[idx := bot]
    case None => bots + [bot]
  }

  function SubmitStatus(selected: Option<BotConfig>, bot: BotConfig): string
  {
    if selected.Some? then "Bot \"" + bot.name + "\" updated successfully"
    else "Bot \"" + bot.name + "\" added successfully"
  }

  /** `bots.filter(b => b.name !== name)`. */
  function WithoutName(bots: seq<BotConfig>, name: string): (r: seq<BotConfig>)
    ensures |r| <= |bots|
    ensures forall b :: b in r <==> b in bots && b.name != name
  {
    FilterMembers(bots, (b: BotConfig) => b.name != name);
    Filter(bots, (b: BotConfig) => b.name != name)
  }

  /**
   * Editing replaces the slot of the first bot named like the original, keeps
   * the length and every other entry; when no bot has the original name the
   * list is returned unchanged.
   */
  lemma EditReplacesFirst(bots: seq<BotConfig>, original: BotConfig, bot: BotConfig)
    ensures var u := SubmitBot(bots, Some(original), bot);
      && |u| == |bots|
      && (Contains(bots, BotName, original.name) ==>
            var i := IndexOf(bots, BotName, original.name);
            u[i] == bot && forall j :: 0 <= j < |bots| && j != i ==> u[j] == bots[j])
      && (!Contains(bots, BotName, original.name) ==> u == bots)
  {
  }

  /** Adding appends at the end, even when a bot of that name is already listed. */
  lemma AddAppends(bots: seq<BotConfig>, bot: BotConfig)
    ensures var u := SubmitBot(bots, None, bot);
      u == bots + [bot] && |u| == |bots| + 1
      && Count(u, BotName, bot.name) == Count(bots, BotName, bot.name) + 1
  {
    CountAppend(bots, [bot], BotName, bot.name);
    assert [bot][1..] == [];
  }

  /** Deleting keeps the order of the rest: the filter distributes over concatenation. */
  lemma WithoutNameAppend(a: seq<BotConfig>, b: seq<BotConfig>, name: string)
    ensures WithoutName(a + b, name) == WithoutName(a, name) + WithoutName(b, name)
  {
    FilterAppend(a, b, (x: BotConfig) => x.name != name);
  }

  /**
   * Deleting removes every bot with the name and no other: each other bot is
   * kept, and the length drops by the number of bots with that name.
   */
  lemma {:induction false} DeleteRemovesAll(bots: seq<BotConfig>, name: string)
    ensures var r := WithoutName(bots, name);
      && !Contains(r, BotName, name)
      && |r| == |bots| - Count(bots, BotName, name)
      && forall b :: b in bots && b.name != name ==> b in r
    decreases |bots|
  {
    var r := WithoutName(bots, name);
    if |bots| > 0 {
      DeleteRemovesAll(bots[1..], name);
      forall b | b in bots && b.name != name ensures b in r {
        if b != bots[0] {
          assert b in bots[1..];
        }
      }
    }
  }

  /**
   * The settings page and the backend store disagree on duplicates: with two
   * or more bots of one name the page drops them all, the store's
   * `deleteBot` only the first.
   */
  lemma DeleteDiffersFromStore(bots: seq<BotConfig>, name: string)
    requires Count(bots, BotName, name) >= 2
    ensures Contains(bots, BotName, name)
    ensures |WithoutName(bots, name)| < |RemoveFirst(bots, BotName, name).value|
  {
    CountZero(bots, BotName, name);
    DeleteRemovesAll(bots, name);
  }

  datatype StatusMessage = Success(text: string) | Failure(text: string)

  /**
   * The component's state that the two handlers touch: the context's bot
   * list, the list last saved to storage, the bot being edited, the name
   * pending deletion, the two dialogs and the status line.
   */
  class BotSettings {
    var bots: seq<BotConfig>
    var saved: seq<BotConfig>
    var selectedBot: Option<BotConfig>
    var botToDelete: Option<string>
    var formOpen: bool
    var confirmOpen: bool
    var status: Option<StatusMessage>

    constructor(bots: seq<BotConfig>, saved: seq<BotConfig>)
      ensures this.bots == bots && this.saved == saved
      ensures selectedBot.None? && botToDelete.None? && !formOpen && !confirmOpen && status.None?
    {
      this.bots := bots;
      this.saved := saved;
      selectedBot := None;
      botToDelete := None;
      formOpen := false;
      confirmOpen := false;
      status := None;
    }

    /**
     * Form submission: the context and storage both get the submitted list,
     * the success message names the submitted bot (also when the edited bot
     * was no longer listed), and the form closes.
     */
    method HandleBotSubmit(bot: BotConfig)
      modifies this
      ensures bots == SubmitBot(old(bots), old(selectedBot), bot) && saved == bots
      ensures status == Some(Success(SubmitStatus(old(selectedBot), bot)))
      ensures !formOpen && selectedBot.None?
      ensures botToDelete == old(botToDelete) && confirmOpen == old(confirmOpen)
    {
      var updated := bots;
      if selectedBot.Some? {
        var idx := IndexOf(updated, BotName, selectedBot.value.name);
        if idx != -1 {
          updated := updated[idx := bot];
        }
        status := Some(Success("Bot \"" + bot.name + "\" updated successfully"));
      } else {
        updated := updated + [bot];
        status := Some(Success("Bot \"" + bot.name + "\" added successfully"));
      }
      bots := updated;
      saved := updated;
      formOpen := false;
      selectedBot := None;
    }

    /**
     * Confirmed deletion: with no pending name nothing happens; otherwise the
     * context and storage both get the list without that name, and the
     * pending name and the dialog are cleared.
     */
    method HandleDeleteBot()
      modifies this
      ensures !Truthy(old(botToDelete)) ==>
        bots == old(bots) && saved == old(saved) && status == old(status)
        && botToDelete == old(botToDelete) && confirmOpen == old(confirmOpen)
      ensures Truthy(old(botToDelete)) ==>
        bots == WithoutName(old(bots), old(botToDelete).value) && saved == bots
        && status == Some(Success("Bot deleted successfully"))
        && botToDelete.None? && !confirmOpen
      ensures selectedBot == old(selectedBot) && formOpen == old(formOpen)
    {
      if !Truthy(botToDelete) {
        return;
      }
      var updated := WithoutName(bots, botToDelete.value);
      bots := updated;
      saved := updated;
      status := Some(Success("Bot deleted successfully"));
      botToDelete := None;
      confirmOpen := false;
    }
  }
}
