/**
 * The Weakness Vault (js/weaknessVault.js): missed questions kept under the
 * `synapse_weakness_vault` storage key, with their attempts and mastery, and
 * the lists and statistics the dashboard reads from it.
 */
module Vault {
  import opened Wrappers
  import opened JsText
  import opened Collections
  import Questions

  /** One saved question; `correctAttempts` is missing until a first correct retry. */
  datatype VaultItem = VaultItem(
    id: string,
    question: string,
    topic: string,
    difficulty: int,
    options: seq<string>,
    correct: int,
    explanation: string,
    passage: Option<string>,
    userAnswer: int,
    attempts: int,
    correctAttempts: Option<int>,
    mastered: bool)

  /** The item `saveToVault(question, userAnswer)` appends: one attempt, not mastered. */
  function NewItem(q: Questions.Question, userAnswer: int): (v: VaultItem)
    ensures v.id == q.id && v.topic == q.topic && v.userAnswer == userAnswer
    ensures v.question == q.question && v.difficulty == q.difficulty && v.options == q.options
    ensures v.correct == q.correct && v.explanation == q.explanation
    ensures v.passage.Some? <==> q.passage.Some? && q.passage.value != ""
    ensures v.passage.Some? ==> v.passage == q.passage
    ensures v.attempts == 1 && v.correctAttempts.None? && !v.mastered
  {
    VaultItem(q.id, q.question, q.topic, q.difficulty, q.options, q.correct, q.explanation,
              if q.passage.Some? && q.passage.value != "" then q.passage else None,
              userAnswer, 1, None, false)
  }

  /** No id is saved twice. */
  predicate IdsUnique(items: seq<VaultItem>) {
    forall i, j :: 0 <= i < j < |items| ==> items[i].id != items[j].id
  }

  /** `items.find(v => v.id === id)`, as the position of the first match from `i` on. */
  function FindFrom(items: seq<VaultItem>, id: string, i: nat): (r: Option<nat>)
    requires i <= |items|
    ensures r.Some? ==> i <= r.value < |items| && items[r.value].id == id
    ensures r.Some? ==> forall j :: i <= j < r.value ==> items[j].id != id
    ensures r.None? <==> forall j :: i <= j < |items| ==> items[j].id != id
    decreases |items| - i
  {
    if i == |items| then None
    else if items[i].id == id then Some(i)
    else FindFrom(items, id, i + 1)
  }

  function Find(items: seq<VaultItem>, id: string): Option<nat> {
    FindFrom(items, id, 0)
  }

  predicate IsActive(v: VaultItem) {
    !v.mastered
  }

  predicate IsMastered(v: VaultItem) {
    v.mastered
  }

  /** Every item is either active or mastered. */
  lemma {:induction false} ActiveMasteredSplit(items: seq<VaultItem>)
    ensures |Filter(items, IsActive)| + |Filter(items, IsMastered)| == |items|
  {
    if items != [] {
      ActiveMasteredSplit(items[1..]);
    }
  }

  /** `vault.filter(v => v.id !== id)`: the items under other ids, in order. */
  function Without(items: seq<VaultItem>, id: string): (r: seq<VaultItem>)
    ensures forall v :: v in r ==> v in items && v.id != id
    ensures forall v :: v in items && v.id != id ==> v in r
    ensures IsSubsequence(r, items)
    ensures |r| == |items| <==> Find(items, id).None?
    ensures IdsUnique(items) ==> IdsUnique(r)
  {
    FilterKeepsAll(items, OtherId(id));
    FilterIdsUnique(items, OtherId(id));
    Filter(items, OtherId(id))
  }

  /** The test `v => v.id !== id` of `removeFromVault`. */
  function OtherId(id: string): VaultItem -> bool {
    (v: VaultItem) => v.id != id
  }

  /**
   * With ids unique, removing a stored id takes out exactly the one item that
   * carries it and keeps the rest in order.
   */
  lemma WithoutUnique(items: seq<VaultItem>, id: string)
    requires IdsUnique(items) && Find(items, id).Some?
    ensures var i := Find(items, id).value;
      Without(items, id) == items[..i] + items[i + 1..]
  {
    var i := Find(items, id).value;
    forall j | 0 <= j < |items| && j != i
      ensures OtherId(id)(items[j])
    {
      assert items[j].id != items[i].id;
    }
    FilterDropsOne(items, OtherId(id), i);
  }

  /** Filtering never introduces a repeated id. */
  lemma {:induction false} FilterIdsUnique(items: seq<VaultItem>, f: VaultItem -> bool)
    ensures IdsUnique(items) ==> IdsUnique(Filter(items, f))
  {
    if items != [] && IdsUnique(items) {
      FilterIdsUnique(items[1..], f);
      assert forall v :: v in items[1..] ==> v.id != items[0].id;
    }
  }

  /** Marking one active item mastered takes exactly one item off the active list. */
  lemma {:induction false} MasteringShrinksActive(items: seq<VaultItem>, i: nat)
    requires i < |items| && !items[i].mastered
    ensures |Filter(items[i := items[i].(mastered := true)], IsActive)| == |Filter(items, IsActive)| - 1
  {
    var after := items[i := items[i].(mastered := true)];
    if i > 0 {
      assert after[1..] == items[1..][i - 1 := items[i].(mastered := true)];
      MasteringShrinksActive(items[1..], i - 1);
    } else {
      assert after[1..] == items[1..];
    }
  }

  // ---------------------------------------------------------------------------
  // Attempts (recordAttempt)
  // ---------------------------------------------------------------------------

  /** `(x || 0)` for a count that may be missing. */
  function OrZero(n: Option<int>): int {
    if n.Some? then n.value else 0
  }

  /** The retry the source records: one more attempt, and one more correct one if right. */
  function Attempted(v: VaultItem, isCorrect: bool): (r: VaultItem)
    ensures r.attempts == v.attempts + 1 && r.mastered == v.mastered
    ensures isCorrect ==> r.correctAttempts == Some(OrZero(v.correctAttempts) + 1)
    ensures !isCorrect ==> r.correctAttempts == v.correctAttempts
    ensures r.(attempts := v.attempts, correctAttempts := v.correctAttempts) == v
  {
    var w := v.(attempts := v.attempts + 1);
    if isCorrect then w.(correctAttempts := Some(OrZero(w.correctAttempts) + 1)) else w
  }

  /** The retry as the comment above it intends: mastered from the third correct attempt on. */
  function AttemptedAndMastered(v: VaultItem, isCorrect: bool): (r: VaultItem)
    ensures r.attempts == v.attempts + 1
    ensures r.mastered <==> v.mastered || (isCorrect && OrZero(v.correctAttempts) + 1 >= 3)
    ensures r.(mastered := v.mastered) == Attempted(v, isCorrect)
  {
    var w := Attempted(v, isCorrect);
    if isCorrect && OrZero(w.correctAttempts) >= 3 then w.(mastered := true) else w
  }

  // ---------------------------------------------------------------------------
  // Statistics (getVaultStats)
  // ---------------------------------------------------------------------------

  /** One `topicCounts` key and its count, in the object's insertion order. */
  datatype Entry = Entry(topic: string, count: nat)

  /** The position of the entry for `topic`. */
  function FindTopic(counts: seq<Entry>, topic: string): (r: Option<nat>)
    ensures r.Some? ==> r.value < |counts| && counts[r.value].topic == topic
    ensures r.Some? ==> forall j :: 0 <= j < r.value ==> counts[j].topic != topic
    ensures r.None? <==> forall j :: 0 <= j < |counts| ==> counts[j].topic != topic
  {
    if counts == [] then None
    else if counts[0].topic == topic then Some(0)
    else
      var r := FindTopic(counts[1..], topic);
      if r.Some? then Some(r.value + 1) else None
  }

  /** `topicCounts[topic] || 0`. */
  function CountOf(counts: seq<Entry>, topic: string): nat {
    var p := FindTopic(counts, topic);
    if p.Some? then counts[p.value].count else 0
  }

  /** The entry at `p` with its count one higher. */
  function Raise(counts: seq<Entry>, p: nat): seq<Entry>
    requires p < |counts|
  {
    counts[p := counts[p].(count := counts[p].count + 1)]
  }

  /** `topicCounts[topic] = (topicCounts[topic] || 0) + 1`: a new key goes last. */
  function Bump(counts: seq<Entry>, topic: string): seq<Entry> {
    var p := FindTopic(counts, topic);
    if p.Some? then Raise(counts, p.value)
    else counts + [Entry(topic, 1)]
  }

  /** The `forEach` over the active items. */
  function TopicCounts(items: seq<VaultItem>): seq<Entry> {
    if items == [] then [] else Bump(TopicCounts(items[..|items| - 1]), items[|items| - 1].topic)
  }

  /** Reference definition: how many of the items carry `topic`. */
  function Tally(items: seq<VaultItem>, topic: string): nat {
    if items == [] then 0
    else Tally(items[..|items| - 1], topic) + (if items[|items| - 1].topic == topic then 1 else 0)
  }

  function Sum(counts: seq<Entry>): nat {
    if counts == [] then 0 else Sum(counts[..|counts| - 1]) + counts[|counts| - 1].count
  }

  /** Each topic once, each with a positive count. */
  predicate Tidy(counts: seq<Entry>) {
    (forall i, j :: 0 <= i < j < |counts| ==> counts[i].topic != counts[j].topic) &&
    (forall i :: 0 <= i < |counts| ==> counts[i].count >= 1)
  }

  /** Raising one count raises the sum by one. */
  lemma {:induction false} SumRaise(counts: seq<Entry>, p: nat)
    requires p < |counts|
    ensures Sum(Raise(counts, p)) == Sum(counts) + 1
    decreases |counts|
  {
    var after := Raise(counts, p);
    var n := |counts| - 1;
    if p < n {
      assert after[..n] == Raise(counts[..n], p);
      SumRaise(counts[..n], p);
    } else {
      assert after[..n] == counts[..n];
    }
  }

  /** Two tables with the same keys in the same places find every key at the same place. */
  lemma FindTopicSameKeys(a: seq<Entry>, b: seq<Entry>, topic: string)
    requires |a| == |b| && forall i :: 0 <= i < |a| ==> a[i].topic == b[i].topic
    ensures FindTopic(a, topic) == FindTopic(b, topic)
  {
  }

  /** A key appended last is found there, and every other key where it was. */
  lemma FindTopicAppend(counts: seq<Entry>, e: Entry, topic: string)
    requires FindTopic(counts, e.topic).None?
    ensures FindTopic(counts + [e], topic) ==
      if topic == e.topic then Some(|counts|) else FindTopic(counts, topic)
  {
    var r := FindTopic(counts + [e], topic);
    var s := FindTopic(counts, topic);
    if topic == e.topic {
      assert (counts + [e])[|counts|].topic == topic;
    } else if s.Some? {
      assert (counts + [e])[s.value].topic == topic;
    } else {
      assert forall j :: 0 <= j < |counts| + 1 ==> (counts + [e])[j].topic != topic;
    }
  }

  /** Raising the count at `p`: still tidy, the sum and that key's count up by one. */
  lemma RaiseFacts(counts: seq<Entry>, p: nat)
    requires Tidy(counts) && p < |counts|
    ensures var after := Raise(counts, p);
      Tidy(after) && Sum(after) == Sum(counts) + 1 &&
      forall t :: CountOf(after, t) == CountOf(counts, t) + (if t == counts[p].topic then 1 else 0)
  {
    var after := Raise(counts, p);
    SumRaise(counts, p);
    forall t
      ensures CountOf(after, t) == CountOf(counts, t) + (if t == counts[p].topic then 1 else 0)
    {
      FindTopicSameKeys(after, counts, t);
    }
  }

  /** Bumping a key already present raises its count where it stands. */
  lemma BumpPresent(counts: seq<Entry>, topic: string)
    requires Tidy(counts) && FindTopic(counts, topic).Some?
    ensures Tidy(Bump(counts, topic)) && Sum(Bump(counts, topic)) == Sum(counts) + 1
    ensures forall t :: CountOf(Bump(counts, topic), t) == CountOf(counts, t) + (if t == topic then 1 else 0)
  {
    var p := FindTopic(counts, topic).value;
    RaiseFacts(counts, p);
  }

  /** Bumping a new key appends it with count one: still tidy, the sum and that key's count up by one. */
  lemma BumpAbsent(counts: seq<Entry>, topic: string)
    requires Tidy(counts) && FindTopic(counts, topic).None?
    ensures Tidy(Bump(counts, topic)) && Sum(Bump(counts, topic)) == Sum(counts) + 1
    ensures forall t :: CountOf(Bump(counts, topic), t) == CountOf(counts, t) + (if t == topic then 1 else 0)
  {
    var e := Entry(topic, 1);
    var after := counts + [e];
    assert Bump(counts, topic) == after;
    assert after[..|after| - 1] == counts;
    forall t
      ensures CountOf(after, t) == CountOf(counts, t) + (if t == topic then 1 else 0)
    {
      FindTopicAppend(counts, e, t);
    }
  }

  /** One bump keeps the table tidy, adds one to the sum and one to that topic's count. */
  lemma BumpFacts(counts: seq<Entry>, topic: string)
    requires Tidy(counts)
    ensures Tidy(Bump(counts, topic))
    ensures Sum(Bump(counts, topic)) == Sum(counts) + 1
    ensures forall t :: CountOf(Bump(counts, topic), t) == CountOf(counts, t) + (if t == topic then 1 else 0)
  {
    if FindTopic(counts, topic).Some? {
      BumpPresent(counts, topic);
    } else {
      BumpAbsent(counts, topic);
    }
  }

  /**
   * The table the `forEach` builds is tidy, its counts sum to the number of
   * items, and each topic's count is the number of items with that topic.
   */
  lemma {:induction false} TopicCountsFacts(items: seq<VaultItem>)
    ensures Tidy(TopicCounts(items))
    ensures Sum(TopicCounts(items)) == |items|
    ensures forall t :: CountOf(TopicCounts(items), t) == Tally(items, t)
  {
    if items != [] {
      var init := items[..|items| - 1];
      TopicCountsFacts(init);
      BumpFacts(TopicCounts(init), items[|items| - 1].topic);
    }
  }

  /** The running maximum of the `for...of` loop: where it was last raised and its value. */
  datatype Best = Best(at: Option<nat>, count: nat)

  /**
   * The loop over `topicCounts`: a count strictly above the best so far takes
   * its place, so the first entry with the largest count wins.
   */
  function Scan(counts: seq<Entry>): (b: Best)
    ensures b.at.Some? ==> b.at.value < |counts| && counts[b.at.value].count == b.count
    ensures b.at.Some? ==> forall j :: 0 <= j < b.at.value ==> counts[j].count < b.count
    ensures forall j :: 0 <= j < |counts| ==> counts[j].count <= b.count
    ensures b.at.None? <==> b.count == 0
  {
    if counts == [] then Best(None, 0)
    else
      var n := |counts| - 1;
      var b := Scan(counts[..n]);
      assert forall j :: 0 <= j < n ==> counts[..n][j] == counts[j];
      if counts[n].count > b.count then Best(Some(n), counts[n].count) else b
  }

  /** What `getVaultStats()` returns. */
  datatype VaultStats = VaultStats(active: nat, mastered: nat, total: nat, topicCounts: seq<Entry>,
                                   weakestTopic: Option<string>)

  /**
   * The statistics of a vault: active and mastered items split the total, the
   * topic counts add up to the active items and count each topic's items, and
   * the weakest topic is missing exactly when nothing is active; otherwise it
   * is the first topic with the largest count.
   */
  function StatsOf(items: seq<VaultItem>): (s: VaultStats)
    ensures s.total == |items| && s.active + s.mastered == s.total
    ensures s.active == |Filter(items, IsActive)|
    ensures Sum(s.topicCounts) == s.active
    ensures forall t :: CountOf(s.topicCounts, t) == Tally(Filter(items, IsActive), t)
    ensures s.weakestTopic.None? <==> s.active == 0
    ensures s.weakestTopic.Some? ==>
      exists k :: (0 <= k < |s.topicCounts| &&
                   s.topicCounts[k].topic == s.weakestTopic.value &&
                   (forall j :: 0 <= j < |s.topicCounts| ==> s.topicCounts[j].count <= s.topicCounts[k].count) &&
                   (forall j :: 0 <= j < k ==> s.topicCounts[j].count < s.topicCounts[k].count))
  {
    var active := Filter(items, IsActive);
    ActiveMasteredSplit(items);
    var counts := TopicCounts(active);
    TopicCountsFacts(active);
    var b := Scan(counts);
    assert counts != [] ==> counts[0].count >= 1;
    assert counts == [] <==> active == [] by {
      if counts == [] {
        assert Sum(counts) == 0;
      }
    }
    VaultStats(|active|, |Filter(items, IsMastered)|, |items|, counts, WeakestOf(counts))
  }

  /** The topic of the entry the scan picks, if any. */
  function WeakestOf(counts: seq<Entry>): Option<string> {
    var b := Scan(counts);
    if b.at.Some? then Some(counts[b.at.value].topic) else None
  }

  /** The maximum loop of `getVaultStats`: the strict `>` keeps the first largest count. */
  method WeakestTopic(topicCounts: seq<Entry>) returns (weakestTopic: Option<string>)
    ensures weakestTopic == WeakestOf(topicCounts)
  {
    weakestTopic := None;
    var maxCount := 0;
    ghost var at: Option<nat> := None;
    for j := 0 to |topicCounts|
      invariant Best(at, maxCount) == Scan(topicCounts[..j])
      invariant at.Some? ==> at.value < j
      invariant weakestTopic == if at.Some? then Some(topicCounts[at.value].topic) else None
    {
      assert topicCounts[..j + 1][..j] == topicCounts[..j];
      if topicCounts[j].count > maxCount {
        weakestTopic := Some(topicCounts[j].topic);
        maxCount := topicCounts[j].count;
        at := Some(j);
      }
    }
    assert topicCounts[..|topicCounts|] == topicCounts;
  }

  // ---------------------------------------------------------------------------
  // Truncation
  // ---------------------------------------------------------------------------

  /**
   * `truncateText(text, maxLength)`: the text itself when it fits, else its
   * first `maxLength` characters (none for a negative length) and `...`.
   */
  function TruncateText(text: string, maxLength: int): (r: string)
    ensures |text| <= maxLength ==> r == text
    ensures |text| > maxLength ==> var n := if maxLength < 0 then 0 else maxLength;
      |r| == n + 3 && r[..n] == text[..n] && r[n..] == "..."
  {
    if |text| <= maxLength then text
    else
      var n := if maxLength < 0 then 0 else maxLength;
      text[..n] + "..."
  }

  /** A truncated text is never longer than the limit plus the ellipsis, so it passes a second truncation unchanged. */
  lemma TruncateBounded(text: string, maxLength: nat)
    ensures |TruncateText(text, maxLength)| <= maxLength + 3
    ensures TruncateText(TruncateText(text, maxLength), maxLength + 3) == TruncateText(text, maxLength)
  {
  }

  // ---------------------------------------------------------------------------
  // The stored vault
  // ---------------------------------------------------------------------------

  class Store {
    /** The array kept under the storage key. */
    var items: seq<VaultItem>

    predicate Valid()
      reads this
    {
      IdsUnique(items)
    }

    /** An empty vault. */
    constructor ()
      ensures items == [] && Valid()
    {
      items := [];
    }

    /**
     * `saveToVault(question, userAnswer)`: refused, changing nothing, when an
     * item with that id is stored; otherwise the new item goes last.
     */
    method SaveToVault(q: Questions.Question, userAnswer: int) returns (saved: bool)
      modifies this
      ensures saved <==> Find(old(items), q.id).None?
      ensures items == if saved then old(items) + [NewItem(q, userAnswer)] else old(items)
      ensures old(Valid()) ==> Valid()
    {
      var vault := items;
      if Find(vault, q.id).Some? {
        return false;
      }
      var vaultItem := NewItem(q, userAnswer);
      vault := vault + [vaultItem];
      items := vault;
      return true;
    }

    /** `getVaultItems()`: the items not yet mastered, in stored order. */
    function VaultItems(): (r: seq<VaultItem>)
      reads this
      ensures forall v :: v in r <==> v in items && !v.mastered
      ensures IsSubsequence(r, items)
    {
      Filter(items, IsActive)
    }

    /** `getVaultCount()`: the items not counted as mastered. */
    function VaultCount(): (n: nat)
      reads this
      ensures n + |Filter(items, IsMastered)| == |items|
    {
      ActiveMasteredSplit(items);
      |VaultItems()|
    }

    /**
     * `markMastered(id)`: the first item with that id becomes mastered (with
     * ids unique, every item under it); with no such item nothing changes.
     */
    method MarkMastered(id: string) returns (found: bool)
      modifies this
      ensures found <==> Find(old(items), id).Some?
      ensures found ==> var i := Find(old(items), id).value;
        items == old(items)[i := old(items)[i].(mastered := true)]
      ensures !found ==> items == old(items)
      ensures old(Valid()) ==> Valid()
      ensures old(Valid()) ==> forall j :: 0 <= j < |items| && items[j].id == id ==> items[j].mastered
    {
      var vault := items;
      var item := Find(vault, id);
      if item.Some? {
        vault := vault[item.value := vault[item.value].(mastered := true)];
        items := vault;
        return true;
      }
      return false;
    }

    /**
     * `removeFromVault(id)`: every item with that id goes, the others stay in
     * order; the answer is whether anything went.
     */
    method RemoveFromVault(id: string) returns (removed: bool)
      modifies this
      ensures items == Without(old(items), id)
      ensures removed <==> Find(old(items), id).Some?
      ensures forall v :: v in items ==> v.id != id
      ensures old(Valid()) ==> Valid()
      ensures old(Valid()) && removed ==> var i := Find(old(items), id).value;
        items == old(items)[..i] + old(items)[i + 1..]
    {
      var vault := items;
      if Valid() && Find(vault, id).Some? {
        WithoutUnique(vault, id);
      }
      var newVault := Without(vault, id);
      items := newVault;
      return |newVault| != |vault|;
    }

    /**
     * `recordAttempt(id, isCorrect)` as written: the retry is counted in a copy
     * read before `markMastered` runs, and saving that copy afterwards writes
     * over the mastery `markMastered` stored. The item's `mastered` never changes.
     */
    method RecordAttempt(id: string, isCorrect: bool)
      modifies this
      ensures Find(old(items), id).None? ==> items == old(items)
      ensures Find(old(items), id).Some? ==> var i := Find(old(items), id).value;
        items == old(items)[i := Attempted(old(items)[i], isCorrect)]
      ensures old(Valid()) ==> Valid()
    {
      var vault := items;
      var found := Find(vault, id);
      if found.Some? {
        var i := found.value;
        vault := vault[i := vault[i].(attempts := vault[i].attempts + 1)];
        if isCorrect {
          vault := vault[i := vault[i].(correctAttempts := Some(OrZero(vault[i].correctAttempts) + 1))];
          if OrZero(vault[i].correctAttempts) >= 3 {
            var _ := MarkMastered(id);
          }
        }
        items := vault;
      }
    }

    /**
     * `recordAttempt(id, isCorrect)` with the retry saved before `markMastered`
     * runs, so that the third correct attempt masters the item.
     */
    method RecordAttemptSaved(id: string, isCorrect: bool)
      modifies this
      ensures Find(old(items), id).None? ==> items == old(items)
      ensures Find(old(items), id).Some? ==> var i := Find(old(items), id).value;
        items == old(items)[i := AttemptedAndMastered(old(items)[i], isCorrect)]
      ensures old(Valid()) ==> Valid()
    {
      var vault := items;
      var found := Find(vault, id);
      if found.Some? {
        var i := found.value;
        vault := vault[i := vault[i].(attempts := vault[i].attempts + 1)];
        var reachedThree := false;
        if isCorrect {
          vault := vault[i := vault[i].(correctAttempts := Some(OrZero(vault[i].correctAttempts) + 1))];
          reachedThree := OrZero(vault[i].correctAttempts) >= 3;
        }
        items := vault;
        if reachedThree {
          var _ := MarkMastered(id);
        }
      }
    }

    /**
     * `getVaultByTopic(topic)`: the active items whose topic contains the
     * query, both lower-cased, in stored order.
     */
    function VaultByTopic(topic: string): (r: seq<VaultItem>)
      reads this
      ensures forall v :: v in r <==> v in VaultItems() && Contains(Lower(v.topic), Lower(topic))
      ensures IsSubsequence(r, VaultItems())
    {
      Filter(VaultItems(), (v: VaultItem) => Contains(Lower(v.topic), Lower(topic)))
    }

    /** `getVaultStats()`: the two filters, the counting `forEach` and the maximum loop. */
    method GetVaultStats() returns (s: VaultStats)
      ensures s == StatsOf(items)
    {
      var vault := items;
      var active := Filter(vault, IsActive);
      var mastered := Filter(vault, IsMastered);
      var topicCounts: seq<Entry> := [];
      for i := 0 to |active|
        invariant topicCounts == TopicCounts(active[..i])
      {
        assert active[..i + 1][..i] == active[..i];
        topicCounts := Bump(topicCounts, active[i].topic);
      }
      assert active[..|active|] == active;
      var weakestTopic := WeakestTopic(topicCounts);
      s := VaultStats(|active|, |mastered|, |vault|, topicCounts, weakestTopic);
    }
  }

  /** With an empty query every active item matches. */
  lemma EmptyQueryListsAll(store: Store)
    ensures store.VaultByTopic("") == store.VaultItems()
  {
    var f := (v: VaultItem) => Contains(Lower(v.topic), Lower(""));
    var active := store.VaultItems();
    forall i | 0 <= i < |active|
      ensures f(active[i])
    {
      assert MatchAt(Lower(active[i].topic), "", 0);
    }
    FilterKeepsAll(active, f);
  }

  /**
   * The stale write, on one item: three correct retries of a freshly saved
   * question leave it with three correct attempts and still not mastered.
   */
  method ThreeCorrectRetries(q: Questions.Question) returns (item: VaultItem, fixedItem: VaultItem)
    ensures item.correctAttempts == Some(3) && !item.mastered
    ensures fixedItem.correctAttempts == Some(3) && fixedItem.mastered
  {
    var store := new Store();
    var _ := store.SaveToVault(q, 0);
    assert store.items == [NewItem(q, 0)];
    store.RecordAttempt(q.id, true);
    store.RecordAttempt(q.id, true);
    store.RecordAttempt(q.id, true);
    item := store.items[0];
    var fixed := new Store();
    var _ := fixed.SaveToVault(q, 0);
    fixed.RecordAttemptSaved(q.id, true);
    fixed.RecordAttemptSaved(q.id, true);
    fixed.RecordAttemptSaved(q.id, true);
    fixedItem := fixed.items[0];
  }
}
