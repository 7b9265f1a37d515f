/**
 * The in-memory bot store (`BotMemoryRepository`): per-namespace arrays of
 * bot configurations seeded once from the `BOTS` environment variable, a
 * listing that adds the free Gemini bot and puts free-model bots last, and
 * add / update / delete by name.
 */
module BotRepository {
  import opened Wrappers
  import opened Lists
  import opened Sorting
  import opened SharedTypes
  import opened Namespaces

  const FreeModel: string := "google/gemini-2.5-flash-preview-05-20"

  /** The free bot offered to every namespace. */
  const GeminiBot: BotConfig :=
    BotConfig("gemini", FreeModel, None, None, Some(["default"]), None, None, None, None, None, None)

  const FreeBots: seq<BotConfig> := [GeminiBot]

  /** `freeBots.findIndex(bot => bot.model === b.model)`, the sort comparator's rank. */
  function FreeRank(b: BotConfig): int
  {
    IndexOf(FreeBots, BotModel, b.model)
  }

  /** With one free bot the rank is 0 for the free model and -1 for every other model. */
  lemma FreeRankValues(b: BotConfig)
    ensures FreeRank(b) == if b.model == FreeModel then 0 else -1
  {
    assert FreeBots[1..] == [];
  }

  /** One pass of the loop: append `fb` unless some bot already has its model. */
  function AddIfModelMissing(bots: seq<BotConfig>, fb: BotConfig): seq<BotConfig>
  {
    if Contains(bots, BotModel, fb.model) then bots else bots + [fb]
  }

  /**
   * The loop over `freeBots`, first to last: the stored bots stay in front,
   * only free bots are added, and afterwards every free bot's model is listed.
   */
  function AddMissingFree(bots: seq<BotConfig>, fbs: seq<BotConfig>): (r: seq<BotConfig>)
    ensures |bots| <= |r| <= |bots| + |fbs| && r[..|bots|] == bots
    ensures forall x :: x in r ==> x in bots || x in fbs
    ensures forall j :: 0 <= j < |fbs| ==> Contains(r, BotModel, fbs[j].model)
    decreases |fbs|
  {
    if |fbs| == 0 then bots
    else
      var prev := AddMissingFree(bots, fbs[..|fbs| - 1]);
      var r := AddIfModelMissing(prev, fbs[|fbs| - 1]);
      assert forall j :: 0 <= j < |prev| ==> r[j] == prev[j];
      assert Contains(r, BotModel, fbs[|fbs| - 1].model) by {
        if !Contains(prev, BotModel, fbs[|fbs| - 1].model) {
          assert r[|prev|] == fbs[|fbs| - 1];
        }
      }
      assert forall j :: 0 <= j < |fbs| - 1 ==> fbs[..|fbs| - 1][j] == fbs[j];
      r
  }

  /** What `getBots` returns for the stored list: free bots added, then the stable sort by rank. */
  function MergedBots(stored: seq<BotConfig>): (r: seq<BotConfig>)
    ensures |r| >= 1 && r[|r| - 1].model == FreeModel
  {
    RankSorted(AddMissingFree(stored, FreeBots))
  }

  /** The sort by rank of a list in which every free bot's model is listed ends with a free-model bot. */
  function RankSorted(w: seq<BotConfig>): (r: seq<BotConfig>)
    requires forall j :: 0 <= j < |FreeBots| ==> Contains(w, BotModel, FreeBots[j].model)
    ensures |r| >= 1 && r[|r| - 1].model == FreeModel
  {
    FreeModelListed(w);
    SortBy(w, FreeRank)
  }

  /** After the loop some bot has the free model, so the sorted listing ends with one. */
  lemma FreeModelListed(w: seq<BotConfig>)
    requires forall j :: 0 <= j < |FreeBots| ==> Contains(w, BotModel, FreeBots[j].model)
    ensures var r := SortBy(w, FreeRank);
      |r| >= 1 && r[|r| - 1].model == FreeModel
  {
    assert FreeBots[0].model == FreeModel;
    FreeModelLast(w);
  }

  /** Sorting keeps every entry. */
  lemma InSorted<T>(w: seq<T>, key: T -> int, x: T)
    requires x in w
    ensures x in SortBy(w, key)
  {
    assert x in multiset(w);
  }

  /** Once a free-model bot is present, the sort by rank puts one last. */
  lemma FreeModelLast(w: seq<BotConfig>)
    requires Contains(w, BotModel, FreeModel)
    ensures var r := SortBy(w, FreeRank);
      |r| >= 1 && r[|r| - 1].model == FreeModel
  {
    var r := SortBy(w, FreeRank);
    var j :| 0 <= j < |w| && w[j].model == FreeModel;
    InSorted(w, FreeRank, w[j]);
    var k :| 0 <= k < |r| && r[k] == w[j];
    SortBySorted(w, FreeRank);
    FreeRankValues(r[k]);
    FreeRankValues(r[|r| - 1]);
    assert FreeRank(r[k]) <= FreeRank(r[|r| - 1]) by {
      if k < |r| - 1 {
        assert SortedBy(r, FreeRank);
      }
    }
  }

  /** The Gemini bot is appended exactly when no stored bot has the free model. */
  lemma WithFreeBot(stored: seq<BotConfig>)
    ensures AddMissingFree(stored, FreeBots)
         == if Contains(stored, BotModel, FreeModel) then stored else stored + [GeminiBot]
  {
    assert FreeBots[..0] == [];
  }

  /** `getBots` returns the stored bots, plus the Gemini bot when no stored bot has its model. */
  lemma GetBotsContents(stored: seq<BotConfig>)
    ensures |MergedBots(stored)| == |stored| + (if Contains(stored, BotModel, FreeModel) then 0 else 1)
    ensures multiset(MergedBots(stored))
         == multiset(stored) + (if Contains(stored, BotModel, FreeModel) then multiset{} else multiset{GeminiBot})
  {
    WithFreeBot(stored);
  }

  /**
   * `getBots` lists the bots of other models first and the free-model bots
   * last, each group in its original order (the sort is stable).
   */
  lemma GetBotsPartition(stored: seq<BotConfig>)
    ensures var w := AddMissingFree(stored, FreeBots);
      MergedBots(stored) == FilterKey(w, FreeRank, -1) + FilterKey(w, FreeRank, 0)
  {
    var w := AddMissingFree(stored, FreeBots);
    forall i | 0 <= i < |w| ensures FreeRank(w[i]) == -1 || FreeRank(w[i]) == 0 {
      FreeRankValues(w[i]);
    }
    SortTwoKeysIsPartition(w, FreeRank, -1, 0);
  }

  /** No bot of another model comes after a bot with the free model. */
  lemma GetBotsFreeLast(stored: seq<BotConfig>)
    ensures var r := MergedBots(stored);
      forall i, j :: 0 <= i < j < |r| && r[i].model == FreeModel ==> r[j].model == FreeModel
  {
    var r := MergedBots(stored);
    SortBySorted(AddMissingFree(stored, FreeBots), FreeRank);
    forall i, j | 0 <= i < j < |r| && r[i].model == FreeModel ensures r[j].model == FreeModel {
      FreeRankValues(r[i]);
      FreeRankValues(r[j]);
    }
  }

  function BotNotFound(name: string): string
  {
    "Bot with name " + name + " not found"
  }

  class BotMemoryRepository {
    const table: UserTable<BotConfig>
    const userPrefix: string

    ghost predicate Valid()
      reads this, table
    {
      userPrefix in table.byUser
    }

    function UserBots(): seq<BotConfig>
      reads this, table
      requires Valid()
    {
      table.byUser[userPrefix]
    }

    /** Seeds the namespace from `BOTS` on its first construction only. */
    constructor(table: UserTable<BotConfig>, bots: EnvArray<BotConfig>, userPrefix: Option<string>)
      modifies table
      ensures this.table == table && this.userPrefix == Namespace(userPrefix)
      ensures Valid()
      ensures Namespace(userPrefix) in old(table.byUser) ==> table.byUser == old(table.byUser)
      ensures Namespace(userPrefix) !in old(table.byUser) ==>
        table.byUser == old(table.byUser)[Namespace(userPrefix) := ArrayOrEmpty(bots)]
    {
      this.table := table;
      this.userPrefix := Namespace(userPrefix);
      new;
      if this.userPrefix !in table.byUser {
        table.byUser := table.byUser[this.userPrefix := ArrayOrEmpty(bots)];
      }
    }

    /**
     * The stored bots with the free bots added when their model is missing,
     * sorted so that free-model bots come last. Works on a copy: the store is
     * not changed.
     */
    method GetBots() returns (bots: seq<BotConfig>)
      requires Valid()
      ensures bots == MergedBots(UserBots())
    {
      bots := UserBots();
      var i := 0;
      while i < |FreeBots|
        invariant 0 <= i <= |FreeBots|
        invariant bots == AddMissingFree(UserBots(), FreeBots[..i])
      {
        var fb := FreeBots[i];
        if !Contains(bots, BotModel, fb.model) {
          bots := bots + [fb];
        }
        assert FreeBots[..i + 1][..i] == FreeBots[..i];
        i := i + 1;
      }
      assert FreeBots[..i] == FreeBots;
      bots := SortBy(bots, FreeRank);
    }

    /** Appends the bot; no check that its name is new. */
    method AddBot(bot: BotConfig)
      requires Valid()
      modifies table
      ensures Valid()
      ensures table.byUser == old(table.byUser)[userPrefix := old(UserBots()) + [bot]]
    {
      table.byUser := table.byUser[userPrefix := UserBots() + [bot]];
    }

    /** Replaces the first bot with this name in place; throws and changes nothing when there is none. */
    method UpdateBot(name: string, bot: BotConfig) returns (outcome: Outcome)
      requires Valid()
      modifies table
      ensures Valid()
      ensures !Contains(old(UserBots()), BotName, name) ==>
        outcome == Fail(BotNotFound(name)) && table.byUser == old(table.byUser)
      ensures Contains(old(UserBots()), BotName, name) ==>
        outcome == Pass
        && table.byUser == old(table.byUser)[userPrefix := ReplaceFirst(old(UserBots()), BotName, name, bot).value]
    {
      var updated := ReplaceFirst(UserBots(), BotName, name, bot);
      if updated.None? {
        return Fail(BotNotFound(name));
      }
      table.byUser := table.byUser[userPrefix := updated.value];
      outcome := Pass;
    }

    /** Removes the first bot with this name; throws and changes nothing when there is none. */
    method DeleteBot(name: string) returns (outcome: Outcome)
      requires Valid()
      modifies table
      ensures Valid()
      ensures !Contains(old(UserBots()), BotName, name) ==>
        outcome == Fail(BotNotFound(name)) && table.byUser == old(table.byUser)
      ensures Contains(old(UserBots()), BotName, name) ==>
        outcome == Pass
        && table.byUser == old(table.byUser)[userPrefix := RemoveFirst(old(UserBots()), BotName, name).value]
    {
      var remaining := RemoveFirst(UserBots(), BotName, name);
      if remaining.None? {
        return Fail(BotNotFound(name));
      }
      table.byUser := table.byUser[userPrefix := remaining.value];
      outcome := Pass;
    }
  }
}
