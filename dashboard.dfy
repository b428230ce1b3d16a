/**
 * The dashboard's list logic: the toggles behind the category, platform and
 * hashtag chips, the merge of typed-in custom hashtags, the rule that
 * disables the send button, the initial platform selection and the count
 * of configured platforms; and the component's state, updated in place.
 */
module Dashboard {
  import opened Wrappers
  import opened Text
  import opened Constants
  import opened Env

  /** What the page hands the dashboard about each platform. */
  datatype PlatformDescriptor = PlatformDescriptor(
    id: PlatformId,
    displayLabel: string,
    description: string,
    isConfigured: bool,
    documentationUrl: string)

  /** The descriptors the page builds, one per configuration record, in key order. */
  function PageDescriptors(env: Environment): (r: seq<PlatformDescriptor>)
    ensures |r| == |PlatformIds|
    ensures forall i :: 0 <= i < |r| ==>
      && r[i].id == PlatformIds[i]
      && r[i].isConfigured == GetPlatformConfig(env, PlatformIds[i]).isConfigured
  {
    var configs := PlatformConfigs(env);
    seq(|configs|, i requires 0 <= i < |configs| =>
      PlatformDescriptor(configs[i].id, configs[i].displayLabel, configs[i].description,
        configs[i].isConfigured, configs[i].documentationUrl))
  }

  // ---------------------------------------------------------------------------
  // Toggles

  /** `xs.filter(item => item !== x)`. */
  function RemoveAll<T(==,!new)>(xs: seq<T>, x: T): (r: seq<T>)
    ensures x !in r
    ensures forall y :: y != x ==> (y in r <==> y in xs)
    ensures |r| <= |xs|
    ensures x !in xs ==> r == xs
  {
    if xs == [] then []
    else if xs[0] == x then RemoveAll(xs[1..], x)
    else
      assert xs == [xs[0]] + xs[1..];
      [xs[0]] + RemoveAll(xs[1..], x)
  }

  lemma {:induction false} RemoveAllAppend<T(!new)>(xs: seq<T>, ys: seq<T>, x: T)
    ensures RemoveAll(xs + ys, x) == RemoveAll(xs, x) + RemoveAll(ys, x)
  {
    if xs == [] {
      assert xs + ys == ys;
    } else {
      assert (xs + ys)[0] == xs[0];
      assert (xs + ys)[1..] == xs[1..] + ys;
      RemoveAllAppend(xs[1..], ys, x);
    }
  }

  lemma {:induction false} RemoveAllKeepsDistinct<T(!new)>(xs: seq<T>, x: T)
    requires Distinct(xs)
    ensures Distinct(RemoveAll(xs, x))
  {
    if xs != [] {
      assert Distinct(xs[1..]);
      RemoveAllKeepsDistinct(xs[1..], x);
      assert xs[0] !in xs[1..];
    }
  }

  /** The updater behind every chip: remove the item everywhere if it is present, else append it. */
  function Toggle<T(==,!new)>(xs: seq<T>, x: T): (r: seq<T>)
    ensures x in r <==> x !in xs
    ensures forall y :: y != x ==> (y in r <==> y in xs)
    ensures x !in xs ==> r == xs + [x]
    ensures x in xs ==> r == RemoveAll(xs, x)
  {
    if x in xs then RemoveAll(xs, x) else xs + [x]
  }

  /** Toggling an absent item twice gives the list back. */
  lemma ToggleTwice<T(!new)>(xs: seq<T>, x: T)
    requires x !in xs
    ensures Toggle(Toggle(xs, x), x) == xs
  {
    RemoveAllAppend(xs, [x], x);
  }

  /** A toggle leaves the other items where they were: with the toggled item taken out, nothing changed. */
  lemma ToggleKeepsOthers<T(!new)>(xs: seq<T>, x: T)
    ensures RemoveAll(Toggle(xs, x), x) == RemoveAll(xs, x)
  {
    if x !in xs {
      RemoveAllAppend(xs, [x], x);
    }
  }

  /** A toggle never introduces a duplicate. */
  lemma ToggleKeepsDistinct<T(!new)>(xs: seq<T>, x: T)
    requires Distinct(xs)
    ensures Distinct(Toggle(xs, x))
  {
    if x in xs {
      RemoveAllKeepsDistinct(xs, x);
    }
  }

  // ---------------------------------------------------------------------------
  // Custom hashtags

  /** `Array.from(new Set(xs))`: the first occurrence of each item, in order. */
  function Dedupe<T(==,!new)>(xs: seq<T>): (r: seq<T>)
    ensures Distinct(r)
    ensures forall y :: y in r <==> y in xs
    ensures |r| <= |xs|
  {
    if xs == [] then []
    else
      var front := Dedupe(xs[..|xs| - 1]);
      assert xs == xs[..|xs| - 1] + [xs[|xs| - 1]];
      if xs[|xs| - 1] in front then front else front + [xs[|xs| - 1]]
  }

  /** Deduplicating a list that has no duplicates changes nothing. */
  lemma {:induction false} DedupeOfDistinct<T(!new)>(xs: seq<T>)
    requires Distinct(xs)
    ensures Dedupe(xs) == xs
  {
    if xs != [] {
      var init := xs[..|xs| - 1];
      assert Distinct(init);
      DedupeOfDistinct(init);
      assert xs[|xs| - 1] !in init;
      assert xs == init + [xs[|xs| - 1]];
    }
  }

  /** Items appended after a list keep the list's own deduplication as a prefix. */
  lemma {:induction false} DedupeAppendPrefix<T(!new)>(xs: seq<T>, ys: seq<T>)
    ensures |Dedupe(xs)| <= |Dedupe(xs + ys)|
    ensures Dedupe(xs + ys)[..|Dedupe(xs)|] == Dedupe(xs)
  {
    if ys == [] {
      assert xs + ys == xs;
    } else {
      var init := ys[..|ys| - 1];
      DedupeAppendPrefix(xs, init);
      assert (xs + ys)[..|xs + ys| - 1] == xs + init;
    }
  }

  /** The current tags followed by the `#`-prefixed entries, without duplicates; the tags themselves when there is no entry. */
  function MergeTags(prev: seq<string>, extra: seq<string>): (r: seq<string>)
    ensures extra == [] ==> r == prev
    ensures extra != [] ==>
      && Distinct(r)
      && forall t :: t in r <==> t in prev || t in TagWords(extra)
  {
    if |extra| == 0 then prev
    else
      var added := TagWords(extra);
      assert forall t :: t in prev + added <==> t in prev || t in added;
      Dedupe(prev + added)
  }

  /**
   * Merging entries one at a time: with duplicate-free tags, one more entry
   * appends its `#`-prefixed form unless the merge so far already holds it.
   */
  lemma MergeTagsAppend(prev: seq<string>, extra: seq<string>, e: string)
    requires Distinct(prev)
    ensures var m := MergeTags(prev, extra);
      MergeTags(prev, extra + [e]) == m + (if TagWord(e) in m then [] else [TagWord(e)])
  {
    var added := TagWords(extra + [e]);
    assert added == TagWords(extra) + [TagWord(e)];
    var xs := prev + added;
    assert xs[..|xs| - 1] == prev + TagWords(extra);
    if extra == [] {
      assert prev + TagWords(extra) == prev;
      DedupeOfDistinct(prev);
    }
  }

  /**
   * The custom-hashtag field's blur handler: the comma-separated entries,
   * trimmed, blanks dropped and `#`-prefixed, appended to the current tags
   * without duplicates; the tags are left alone when there is no entry.
   */
  function MergeCustomHashtags(prev: seq<string>, input: string): (r: seq<string>)
    ensures CommaList(input) == [] ==> r == prev
    ensures CommaList(input) != [] ==>
      && Distinct(r)
      && forall t :: t in r <==> t in prev || t in TagWords(CommaList(input))
  {
    MergeTags(prev, CommaList(input))
  }

  /** Input made of blanks and commas only leaves the tags unchanged. */
  lemma MergeBlankInput(prev: seq<string>, input: string)
    requires forall i :: 0 <= i < |input| ==> input[i] == ',' || IsWhitespace(input[i])
    ensures MergeCustomHashtags(prev, input) == prev
  {
    CommaListOfBlank(input);
  }

  /** Deduplicating `prev + added` keeps a duplicate-free `prev` as its prefix; everything after comes from `added`. */
  lemma DedupeAfterDistinct<T(!new)>(prev: seq<T>, added: seq<T>)
    requires Distinct(prev)
    ensures var r := Dedupe(prev + added);
      && |prev| <= |r| && r[..|prev|] == prev
      && forall k :: |prev| <= k < |r| ==> r[k] in added
  {
    DedupeOfDistinct(prev);
    DedupeAppendPrefix(prev, added);
    var r := Dedupe(prev + added);
    forall k | |prev| <= k < |r| ensures r[k] in added {
      assert r[k] !in r[..|prev|];
      assert r[k] in prev + added;
    }
  }

  lemma MergeTagsKeepsPrevious(prev: seq<string>, extra: seq<string>)
    requires Distinct(prev)
    ensures var r := MergeTags(prev, extra);
      && |prev| <= |r| && r[..|prev|] == prev
      && forall k :: |prev| <= k < |r| ==> StartsWith(r[k], "#")
  {
    if |extra| > 0 {
      var added := TagWords(extra);
      DedupeAfterDistinct(prev, added);
      var r := Dedupe(prev + added);
      forall k | |prev| <= k < |r| ensures StartsWith(r[k], "#") {
        var i :| 0 <= i < |added| && added[i] == r[k];
      }
    }
  }

  /** When the current tags have no duplicates, merging keeps them first and in order, and adds only `#`-prefixed tags. */
  lemma MergeKeepsPrevious(prev: seq<string>, input: string)
    requires Distinct(prev)
    ensures var r := MergeCustomHashtags(prev, input);
      && |prev| <= |r| && r[..|prev|] == prev
      && forall k :: |prev| <= k < |r| ==> StartsWith(r[k], "#")
  {
    MergeTagsKeepsPrevious(prev, CommaList(input));
  }

  // ---------------------------------------------------------------------------
  // Send button, initial selection, configured count

  /** `disableSend`: blank message, blank headline, no category, no platform, or a send in flight. */
  function DisableSend(message: string, headline: string, categories: seq<string>, selected: seq<PlatformId>, isSending: bool): (r: bool)
    ensures r <==>
      || (forall i :: 0 <= i < |message| ==> IsWhitespace(message[i]))
      || (forall i :: 0 <= i < |headline| ==> IsWhitespace(headline[i]))
      || |categories| == 0
      || |selected| == 0
      || isSending
  {
    |Trim(message)| == 0 || |Trim(headline)| == 0 || |categories| == 0 || |selected| == 0 || isSending
  }

  /** The ids of the configured descriptors, in descriptor order. */
  function InitialSelection(platforms: seq<PlatformDescriptor>): (r: seq<PlatformId>)
    ensures forall id :: id in r <==> exists i :: 0 <= i < |platforms| && platforms[i].id == id && platforms[i].isConfigured
  {
    if platforms == [] then []
    else
      var rest := InitialSelection(platforms[1..]);
      assert forall i :: 1 <= i < |platforms| ==> platforms[i] == platforms[1..][i - 1];
      if platforms[0].isConfigured then [platforms[0].id] + rest else rest
  }

  /** Selecting from two runs of descriptors is selecting from each and concatenating, one descriptor at a time. */
  lemma {:induction false} InitialSelectionAppend(a: seq<PlatformDescriptor>, b: seq<PlatformDescriptor>)
    ensures InitialSelection(a + b) == InitialSelection(a) + InitialSelection(b)
    ensures |a| == 1 ==> InitialSelection(a) == if a[0].isConfigured then [a[0].id] else []
  {
    if a == [] {
      assert a + b == b;
    } else {
      assert (a + b)[0] == a[0] && (a + b)[1..] == a[1..] + b;
      InitialSelectionAppend(a[1..], b);
    }
  }

  /** `configuredCount`: how many descriptors are configured. */
  function ConfiguredCount(platforms: seq<PlatformDescriptor>): (n: nat)
    ensures n == |set i | 0 <= i < |platforms| && platforms[i].isConfigured|
    ensures n <= |platforms|
    ensures n == 0 <==> forall i :: 0 <= i < |platforms| ==> !platforms[i].isConfigured
  {
    if platforms == [] then 0
    else
      var k := |platforms| - 1;
      var init := platforms[..k];
      var n := ConfiguredCount(init) + if platforms[k].isConfigured then 1 else 0;
      assert (set i | 0 <= i < |platforms| && platforms[i].isConfigured)
          == (set i | 0 <= i < |init| && init[i].isConfigured) + (if platforms[k].isConfigured then {k} else {});
      assert n == 0 ==> forall i :: 0 <= i < |platforms| ==> !platforms[i].isConfigured;
      n
  }

  /** The initial selection has one entry per configured descriptor. */
  lemma {:induction false} InitialSelectionCount(platforms: seq<PlatformDescriptor>)
    ensures |InitialSelection(platforms)| == ConfiguredCount(platforms)
  {
    if platforms != [] {
      var k := |platforms| - 1;
      assert platforms == platforms[..k] + [platforms[k]];
      InitialSelectionAppend(platforms[..k], [platforms[k]]);
      InitialSelectionCount(platforms[..k]);
    }
  }

  /** Descriptors that name each platform at most once select each platform at most once. */
  lemma {:induction false} InitialSelectionDistinct(platforms: seq<PlatformDescriptor>)
    requires forall i, j :: 0 <= i < j < |platforms| ==> platforms[i].id != platforms[j].id
    ensures Distinct(InitialSelection(platforms))
  {
    if platforms != [] {
      var rest := platforms[1..];
      InitialSelectionDistinct(rest);
      assert forall i :: 0 <= i < |rest| ==> rest[i].id != platforms[0].id;
      assert platforms[0].id !in InitialSelection(rest);
    }
  }

  /** On the page, the initial selection is exactly `listConfiguredIds()`. */
  lemma PageInitialSelection(env: Environment)
    ensures InitialSelection(PageDescriptors(env)) == ListConfiguredIds(env)
  {
    PlatformIdsEnumerate();
    SelectionOfConfigs(env, PlatformIds);
    assert PageDescriptors(env) == DescriptorsOf(env, PlatformIds);
  }

  function DescriptorsOf(env: Environment, ids: seq<PlatformId>): (r: seq<PlatformDescriptor>)
    ensures |r| == |ids|
    ensures forall i :: 0 <= i < |ids| ==>
      && r[i].id == ids[i]
      && r[i].isConfigured == GetPlatformConfig(env, ids[i]).isConfigured
  {
    seq(|ids|, i requires 0 <= i < |ids| =>
      var config := GetPlatformConfig(env, ids[i]);
      PlatformDescriptor(config.id, config.displayLabel, config.description, config.isConfigured, config.documentationUrl))
  }

  lemma {:induction false} SelectionOfConfigs(env: Environment, ids: seq<PlatformId>)
    requires forall i, j :: 0 <= i < j < |ids| ==> PlatformIndex(ids[i]) < PlatformIndex(ids[j])
    ensures InitialSelection(DescriptorsOf(env, ids)) == ConfiguredAmong(env, ids)
  {
    if ids != [] {
      SelectionOfConfigs(env, ids[1..]);
      assert DescriptorsOf(env, ids)[1..] == DescriptorsOf(env, ids[1..]);
    }
  }

  // ---------------------------------------------------------------------------
  // The component's state

  const DefaultHeadline := "Daily Dose of Calm Energy"
  const DefaultMessage := "Breathe in for 4, hold for 4, exhale for 6. Feel how your body softens when you lengthen the out-breath. Try it twice today and let the ripples steady you."
  const DefaultCategories: seq<string> := ["Mindfulness Reminder", "Yoga Tip"]
  const DefaultTone := "Calming"
  const DefaultSelectedHashtags: seq<string> := ["#Mindfulness", "#YogaJourney", "#DailyAffirmation"]

  /** The dashboard's `useState` fields; each updater replaces one field. */
  class DashboardState {
    var headline: string
    var message: string
    var categories: seq<string>
    var tone: string
    var hashtags: seq<string>
    var selectedPlatforms: seq<PlatformId>
    var isSending: bool

    /** Categories come from the fixed list and neither categories nor hashtags repeat. */
    predicate Valid()
      reads this
    {
      && Distinct(categories)
      && (forall i :: 0 <= i < |categories| ==> categories[i] in MessageCategories)
      && Distinct(hashtags)
    }

    /** The component's first render. */
    constructor(platforms: seq<PlatformDescriptor>)
      ensures headline == DefaultHeadline && message == DefaultMessage
      ensures categories == DefaultCategories && tone == DefaultTone
      ensures hashtags == DefaultSelectedHashtags
      ensures selectedPlatforms == InitialSelection(platforms)
      ensures (forall i, j :: 0 <= i < j < |platforms| ==> platforms[i].id != platforms[j].id) ==> Distinct(selectedPlatforms)
      ensures !isSending
      ensures Valid()
    {
      headline := DefaultHeadline;
      message := DefaultMessage;
      categories := DefaultCategories;
      tone := DefaultTone;
      hashtags := DefaultSelectedHashtags;
      selectedPlatforms := InitialSelection(platforms);
      isSending := false;
      if forall i, j :: 0 <= i < j < |platforms| ==> platforms[i].id != platforms[j].id {
        InitialSelectionDistinct(platforms);
      }
    }

    /** `toggleCategory`. */
    method ToggleCategory(category: string)
      requires Valid() && category in MessageCategories
      modifies this`categories
      ensures categories == Toggle(old(categories), category)
      ensures Valid()
    {
      ToggleKeepsDistinct(categories, category);
      categories := Toggle(categories, category);
      assert forall i :: 0 <= i < |categories| ==> categories[i] in categories;
    }

    /** `togglePlatform`. */
    method TogglePlatform(id: PlatformId)
      requires Valid()
      modifies this`selectedPlatforms
      ensures selectedPlatforms == Toggle(old(selectedPlatforms), id)
      ensures Distinct(old(selectedPlatforms)) ==> Distinct(selectedPlatforms)
      ensures Valid()
    {
      if Distinct(selectedPlatforms) {
        ToggleKeepsDistinct(selectedPlatforms, id);
      }
      selectedPlatforms := Toggle(selectedPlatforms, id);
    }

    /** `toggleHashtag`. */
    method ToggleHashtag(tag: string)
      requires Valid()
      modifies this`hashtags
      ensures hashtags == Toggle(old(hashtags), tag)
      ensures Valid()
    {
      ToggleKeepsDistinct(hashtags, tag);
      hashtags := Toggle(hashtags, tag);
    }

    /** The custom-hashtag field losing focus with `input` typed in it. */
    method AddCustomHashtags(input: string)
      requires Valid()
      modifies this`hashtags
      ensures hashtags == MergeCustomHashtags(old(hashtags), input)
      ensures |old(hashtags)| <= |hashtags| && hashtags[..|old(hashtags)|] == old(hashtags)
      ensures Valid()
    {
      MergeKeepsPrevious(hashtags, input);
      hashtags := MergeCustomHashtags(hashtags, input);
    }

    /** Whether the send button is disabled in the current state. */
    function SendDisabled(): (r: bool)
      reads this
      ensures !r ==> |categories| > 0 && |selectedPlatforms| > 0 && !isSending
    {
      DisableSend(message, headline, categories, selectedPlatforms, isSending)
    }
  }
}
