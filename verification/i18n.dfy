/**
 * Localisation: an ordered list of bundles, one per requested language,
 * each fed by the language files found in that language's folder. Lookups
 * go through the bundles in order, so later languages are fallbacks for
 * earlier ones. Fluent itself is abstracted: a resource is a map from
 * message id to message, and formatting a message yields its text.
 */
module I18n {
  import opened Common

  /** A language identifier, written as its canonical tag. */
  type Lang = string

  /** What `LanguageIdentifier::default()` is: the undetermined language. */
  const DefaultLang: Lang := "und"

  type Handle = nat

  datatype Message = Message(value: Option<string>, attributes: map<string, string>)

  /** A parsed language file. */
  type Resource = map<string, Message>

  datatype Bundle = Bundle(locales: seq<Lang>, messages: map<string, Message>)

  /** A language file a bundle tracks, and whether its contents were added yet. */
  datatype Tracked = Tracked(loaded: bool, handle: Handle)

  datatype Entry = Entry(handles: seq<Tracked>, bundle: Bundle)

  // ---------------------------------------------------------------------------
  // Bundles

  /** `add_resource`: messages already in the bundle are kept (the duplicates are reported). */
  function Added(b: Bundle, r: Resource): (b': Bundle)
    ensures b'.locales == b.locales && b'.messages.Keys == b.messages.Keys + r.Keys
    ensures forall id | id in b.messages :: b'.messages[id] == b.messages[id]
  {
    b.(messages := r + b.messages)
  }

  /** `add_resource_overriding`: the resource's messages replace those already in the bundle. */
  function AddedOverriding(b: Bundle, r: Resource): (b': Bundle)
    ensures b'.locales == b.locales && b'.messages.Keys == b.messages.Keys + r.Keys
    ensures forall id | id in r :: b'.messages[id] == r[id]
  {
    b.(messages := b.messages + r)
  }

  // ---------------------------------------------------------------------------
  // Loading state

  function Unloaded(hs: seq<Tracked>): nat
    decreases |hs|
  {
    if hs == [] then 0 else (if hs[0].loaded then 0 else 1) + Unloaded(hs[1..])
  }

  /** `remaining_to_load`: the tracked files not yet loaded, over all bundles. */
  function Remaining(bs: seq<Entry>): nat
    decreases |bs|
  {
    if bs == [] then 0 else Unloaded(bs[0].handles) + Remaining(bs[1..])
  }

  /** `is_fully_loaded` */
  predicate FullyLoaded(bs: seq<Entry>) {
    forall i, j | 0 <= i < |bs| && 0 <= j < |bs[i].handles| :: bs[i].handles[j].loaded
  }

  lemma {:induction false} UnloadedZero(hs: seq<Tracked>)
    ensures Unloaded(hs) == 0 <==> forall j | 0 <= j < |hs| :: hs[j].loaded
    decreases |hs|
  {
    if hs != [] {
      UnloadedZero(hs[1..]);
      assert forall j | 1 <= j < |hs| :: hs[j] == hs[1..][j - 1];
    }
  }

  /** Everything is loaded exactly when nothing remains to load. */
  lemma {:induction false} FullyLoadedIffNoneRemaining(bs: seq<Entry>)
    ensures FullyLoaded(bs) <==> Remaining(bs) == 0
    decreases |bs|
  {
    if bs != [] {
      FullyLoadedIffNoneRemaining(bs[1..]);
      UnloadedZero(bs[0].handles);
      assert forall i | 1 <= i < |bs| :: bs[i] == bs[1..][i - 1];
    }
  }

  // ---------------------------------------------------------------------------
  // Finding a tracked file

  /** The first position of `h` among the tracked files. */
  function Find(hs: seq<Tracked>, h: Handle): (r: Option<nat>)
    ensures r.Some? ==> r.value < |hs| && hs[r.value].handle == h && forall j | 0 <= j < r.value :: hs[j].handle != h
    ensures r.None? ==> forall j | 0 <= j < |hs| :: hs[j].handle != h
    decreases |hs|
  {
    if hs == [] then None
    else if hs[0].handle == h then Some(0)
    else
      var r := Find(hs[1..], h);
      assert forall j | 1 <= j < |hs| :: hs[j] == hs[1..][j - 1];
      if r.Some? then Some(r.value + 1) else None
  }

  /** The first bundle that tracks `h`. */
  function FirstTracking(bs: seq<Entry>, h: Handle): (r: Option<nat>)
    ensures r.Some? ==> r.value < |bs| && Find(bs[r.value].handles, h).Some? && forall i | 0 <= i < r.value :: Find(bs[i].handles, h).None?
    ensures r.None? ==> forall i | 0 <= i < |bs| :: Find(bs[i].handles, h).None?
    decreases |bs|
  {
    if bs == [] then None
    else if Find(bs[0].handles, h).Some? then Some(0)
    else
      var r := FirstTracking(bs[1..], h);
      assert forall i | 1 <= i < |bs| :: bs[i] == bs[1..][i - 1];
      if r.Some? then Some(r.value + 1) else None
  }

  /** The first bundle that tracks `h` is the one before which none does. */
  lemma FirstTrackingAt(bs: seq<Entry>, h: Handle, k: nat)
    requires k < |bs| && Find(bs[k].handles, h).Some?
    requires forall i | 0 <= i < k :: Find(bs[i].handles, h).None?
    ensures FirstTracking(bs, h) == Some(k)
  {
  }

  /** The bundle entry once the file at position `j`, with contents `r`, has been added to it. */
  function Marked(e: Entry, j: nat, r: Resource): Entry
    requires j < |e.handles|
  {
    Entry(e.handles[j := e.handles[j].(loaded := true)],
          if e.handles[j].loaded then AddedOverriding(e.bundle, r) else Added(e.bundle, r))
  }

  /** Reference definition of `update_bundle_for_matching_handle_asset`'s effect on the bundles. */
  function AssetUpdated(bs: seq<Entry>, h: Handle, assets: map<Handle, Resource>): seq<Entry> {
    if h !in assets then bs
    else match FirstTracking(bs, h)
      case None => bs
      case Some(k) => bs[k := Marked(bs[k], Find(bs[k].handles, h).value, assets[h])]
  }

  // ---------------------------------------------------------------------------
  // Rebuilding bundles

  /** Adds, overriding, every available file's contents, in order. */
  function Reloaded(b: Bundle, hs: seq<Tracked>, assets: map<Handle, Resource>): (b': Bundle)
    ensures b'.locales == b.locales
    decreases |hs|
  {
    if hs == [] then b
    else
      var prior := Reloaded(b, hs[..|hs| - 1], assets);
      var h := hs[|hs| - 1].handle;
      if h in assets then AddedOverriding(prior, assets[h]) else prior
  }

  /** `Vec::swap_remove`: the last element takes the removed one's place. */
  function SwapRemove<T>(s: seq<T>, i: nat): (r: seq<T>)
    requires i < |s|
    ensures |r| == |s| - 1
    ensures r[..i] == s[..i]
    ensures i < |r| ==> r[i] == s[|s| - 1] && r[i + 1..] == s[i + 1..|s| - 1]
  {
    if i == |s| - 1 then s[..i]
    else
      var r := s[..i] + [s[|s| - 1]] + s[i + 1..|s| - 1];
      assert r[..i] == s[..i] && r[i + 1..] == s[i + 1..|s| - 1];
      r
  }

  /** Only the removed element goes: the others are all still there. */
  lemma SwapRemoveMultiset<T>(s: seq<T>, i: nat)
    requires i < |s|
    ensures multiset(SwapRemove(s, i)) + multiset{s[i]} == multiset(s)
  {
    var r, a := SwapRemove(s, i), s[..i];
    if i == |s| - 1 {
      assert s == a + [s[i]];
    } else {
      var b := s[i + 1..|s| - 1];
      assert s == a + [s[i]] + b + [s[|s| - 1]];
      assert r == a + [s[|s| - 1]] + b;
    }
  }

  /** The bundle built for a language from the files of its folder: those already available are added at once. */
  function InitBundle(lang: Lang, hs: seq<Handle>, assets: map<Handle, Resource>): (e: Entry)
    ensures e.bundle.locales == [lang] && |e.handles| == |hs|
    ensures forall j | 0 <= j < |hs| :: e.handles[j] == Tracked(hs[j] in assets, hs[j])
    decreases |hs|
  {
    if hs == [] then Entry([], Bundle([lang], map[]))
    else
      var prior := InitBundle(lang, hs[..|hs| - 1], assets);
      var h := hs[|hs| - 1];
      Entry(prior.handles + [Tracked(h in assets, h)],
            if h in assets then Added(prior.bundle, assets[h]) else prior.bundle)
  }

  /** The bundles for `langs`, or the first language whose folder could not be loaded. */
  function InitBundles(langs: seq<Lang>, folders: map<Lang, seq<Handle>>, assets: map<Handle, Resource>): (r: Result<seq<Entry>, Lang>)
    ensures r.Err? <==> exists i | 0 <= i < |langs| :: langs[i] !in folders
    ensures r.Err? ==> r.error in langs && r.error !in folders
    ensures r.Ok? ==> |r.value| == |langs| && forall i | 0 <= i < |langs| :: r.value[i] == InitBundle(langs[i], folders[langs[i]], assets)
    decreases |langs|
  {
    if langs == [] then Ok([])
    else if langs[0] !in folders then Err(langs[0])
    else
      var rest := InitBundles(langs[1..], folders, assets);
      assert forall i | 1 <= i < |langs| :: langs[i] == langs[1..][i - 1];
      if rest.Err? then Err(rest.error)
      else Ok([InitBundle(langs[0], folders[langs[0]], assets)] + rest.value)
  }

  function FirstLocale(e: Entry): Option<Lang> {
    if e.bundle.locales == [] then None else Some(e.bundle.locales[0])
  }

  /** Whether `change_language_to` rebuilds: a different number of languages, or a different first locale somewhere. */
  predicate NeedsChange(bs: seq<Entry>, langs: seq<Lang>) {
    |bs| != |langs| || exists i | 0 <= i < |bs| :: FirstLocale(bs[i]) != Some(langs[i])
  }

  /** The bundles after `change_language_to`: rebuilt when needed and every folder loads, else as they were. */
  function LanguageChange(bs: seq<Entry>, langs: seq<Lang>, folders: map<Lang, seq<Handle>>, assets: map<Handle, Resource>): seq<Entry> {
    if !NeedsChange(bs, langs) then bs
    else match InitBundles(langs, folders, assets)
      case Err(_) => bs
      case Ok(nb) => nb
  }

  /** Whether `change_language_to` announces a change: it rebuilt, and everything was already available. */
  predicate AnnouncesChange(bs: seq<Entry>, langs: seq<Lang>, folders: map<Lang, seq<Handle>>, assets: map<Handle, Resource>) {
    NeedsChange(bs, langs) && InitBundles(langs, folders, assets).Ok? && FullyLoaded(InitBundles(langs, folders, assets).value)
  }

  /** The bundles after `remove_tracked_handle` dropped `h` from the first bundle tracking it and reloaded that bundle. */
  function HandleRemoved(bs: seq<Entry>, h: Handle, assets: map<Handle, Resource>): seq<Entry>
    requires FirstTracking(bs, h).Some?
  {
    var k := FirstTracking(bs, h).value;
    var hs := SwapRemove(bs[k].handles, Find(bs[k].handles, h).value);
    bs[k := Entry(hs, Reloaded(Bundle(bs[k].bundle.locales, map[]), hs, assets))]
  }

  /** A change in the asset store's language files. */
  datatype AssetEvent = Created(handle: Handle) | Modified(handle: Handle) | Removed(handle: Handle)

  /**
   * Reference definition of `language_asset_loaded`: the bundles and the
   * number of change announcements after the events, and whether a removal
   * reached the unimplemented reload and stopped everything.
   */
  function EventsApplied(bs: seq<Entry>, sent: nat, evs: seq<AssetEvent>, assets: map<Handle, Resource>): (seq<Entry>, nat, bool)
    decreases |evs|
  {
    if evs == [] then (bs, sent, false)
    else match evs[0]
      case Removed(h) =>
        if FirstTracking(bs, h).None? then EventsApplied(bs, sent, evs[1..], assets)
        else
          var bs' := HandleRemoved(bs, h, assets);
          (bs', sent + if FullyLoaded(bs') then 1 else 0, true)
      case _ =>
        var h := evs[0].handle;
        var bs' := AssetUpdated(bs, h, assets);
        EventsApplied(bs', sent + (if h in assets && FullyLoaded(bs') then 1 else 0), evs[1..], assets)
  }

  // ---------------------------------------------------------------------------
  // Lookups

  predicate HasValue(e: Entry, id: string) {
    id in e.bundle.messages && e.bundle.messages[id].value.Some?
  }

  predicate HasAttribute(e: Entry, id: string, attr: string) {
    id in e.bundle.messages && attr in e.bundle.messages[id].attributes
  }

  /** The value of `id` in the first bundle whose message has one. */
  function FirstValue(bs: seq<Entry>, id: string): Option<string>
    decreases |bs|
  {
    if bs == [] then None
    else if HasValue(bs[0], id) then Some(bs[0].bundle.messages[id].value.value)
    else FirstValue(bs[1..], id)
  }

  /** The attribute `attr` of `id` in the first bundle whose message has it. */
  function FirstAttribute(bs: seq<Entry>, id: string, attr: string): Option<string>
    decreases |bs|
  {
    if bs == [] then None
    else if HasAttribute(bs[0], id, attr) then Some(bs[0].bundle.messages[id].attributes[attr])
    else FirstAttribute(bs[1..], id, attr)
  }

  function MissingMessage(id: string): string {
    "##~" + id + "~##"
  }

  function MissingAttribute(id: string, attr: string): string {
    "##~" + id + "~@@~" + attr + "~##"
  }

  /** A lookup finds the text of the first bundle, in order, that has it. */
  lemma {:induction false} FirstValueIsFirst(bs: seq<Entry>, id: string, k: nat)
    requires k < |bs| && HasValue(bs[k], id)
    requires forall i | 0 <= i < k :: !HasValue(bs[i], id)
    ensures FirstValue(bs, id) == Some(bs[k].bundle.messages[id].value.value)
    decreases k
  {
    if k > 0 {
      assert !HasValue(bs[0], id);
      assert forall i | 0 <= i < k - 1 :: bs[1..][i] == bs[i + 1];
      FirstValueIsFirst(bs[1..], id, k - 1);
    }
  }

  lemma {:induction false} FirstValueNone(bs: seq<Entry>, id: string)
    ensures FirstValue(bs, id).None? <==> forall i | 0 <= i < |bs| :: !HasValue(bs[i], id)
    decreases |bs|
  {
    if bs != [] {
      FirstValueNone(bs[1..], id);
      assert forall i | 1 <= i < |bs| :: bs[i] == bs[1..][i - 1];
    }
  }

  lemma {:induction false} FirstAttributeIsFirst(bs: seq<Entry>, id: string, attr: string, k: nat)
    requires k < |bs| && HasAttribute(bs[k], id, attr)
    requires forall i | 0 <= i < k :: !HasAttribute(bs[i], id, attr)
    ensures FirstAttribute(bs, id, attr) == Some(bs[k].bundle.messages[id].attributes[attr])
    decreases k
  {
    if k > 0 {
      assert !HasAttribute(bs[0], id, attr);
      assert forall i | 0 <= i < k - 1 :: bs[1..][i] == bs[i + 1];
      FirstAttributeIsFirst(bs[1..], id, attr, k - 1);
    }
  }

  lemma {:induction false} FirstAttributeNone(bs: seq<Entry>, id: string, attr: string)
    ensures FirstAttribute(bs, id, attr).None? <==> forall i | 0 <= i < |bs| :: !HasAttribute(bs[i], id, attr)
    decreases |bs|
  {
    if bs != [] {
      FirstAttributeNone(bs[1..], id, attr);
      assert forall i | 1 <= i < |bs| :: bs[i] == bs[1..][i - 1];
    }
  }

  // ---------------------------------------------------------------------------
  // Properties of the bundle updates

  /** An asset update changes at most the first bundle tracking the file, and there only sets its flag. */
  lemma AssetUpdatedOnlyLoads(bs: seq<Entry>, h: Handle, assets: map<Handle, Resource>)
    ensures var bs' := AssetUpdated(bs, h, assets);
      && |bs'| == |bs|
      && (forall i | 0 <= i < |bs| :: |bs'[i].handles| == |bs[i].handles| && bs'[i].bundle.locales == bs[i].bundle.locales)
      && (forall i, j | 0 <= i < |bs| && 0 <= j < |bs[i].handles| ::
            bs'[i].handles[j].handle == bs[i].handles[j].handle && (bs[i].handles[j].loaded ==> bs'[i].handles[j].loaded))
      && (forall i | 0 <= i < |bs| && Some(i) != FirstTracking(bs, h) :: bs'[i] == bs[i])
      && (h in assets && FirstTracking(bs, h).Some? ==>
            var k := FirstTracking(bs, h).value;
            bs'[k].handles[Find(bs[k].handles, h).value].loaded)
      && (h !in assets ==> bs' == bs)
  {
  }

  lemma {:induction false} UnloadedSet(hs: seq<Tracked>, j: nat, t: Tracked)
    requires j < |hs|
    ensures Unloaded(hs[j := t]) + (if hs[j].loaded then 0 else 1) == Unloaded(hs) + (if t.loaded then 0 else 1)
    decreases |hs|
  {
    if j > 0 {
      assert hs[j := t][1..] == hs[1..][j - 1 := t];
      UnloadedSet(hs[1..], j - 1, t);
    } else {
      assert hs[j := t][1..] == hs[1..];
    }
  }

  lemma {:induction false} RemainingSet(bs: seq<Entry>, k: nat, e: Entry)
    requires k < |bs|
    ensures Remaining(bs[k := e]) + Unloaded(bs[k].handles) == Remaining(bs) + Unloaded(e.handles)
    decreases |bs|
  {
    if k > 0 {
      assert bs[k := e][1..] == bs[1..][k - 1 := e];
      RemainingSet(bs[1..], k - 1, e);
    } else {
      assert bs[k := e][1..] == bs[1..];
    }
  }

  /** An update lowers the count still to load by one exactly when it loads a file that was not loaded yet. */
  lemma RemainingAfterUpdate(bs: seq<Entry>, h: Handle, assets: map<Handle, Resource>)
    ensures var first := FirstTracking(bs, h);
      Remaining(AssetUpdated(bs, h, assets)) + 1 == Remaining(bs) <==>
        h in assets && first.Some? && !bs[first.value].handles[Find(bs[first.value].handles, h).value].loaded
    ensures Remaining(AssetUpdated(bs, h, assets)) <= Remaining(bs)
  {
    if h in assets && FirstTracking(bs, h).Some? {
      var k := FirstTracking(bs, h).value;
      var j := Find(bs[k].handles, h).value;
      var e := Marked(bs[k], j, assets[h]);
      UnloadedSet(bs[k].handles, j, e.handles[j]);
      RemainingSet(bs, k, e);
    }
  }

  /** Asking for the languages just switched to, or asking again after a failure, changes nothing. */
  lemma LanguageChangeIdempotent(bs: seq<Entry>, langs: seq<Lang>, folders: map<Lang, seq<Handle>>, assets: map<Handle, Resource>)
    ensures var bs' := LanguageChange(bs, langs, folders, assets);
      LanguageChange(bs', langs, folders, assets) == bs' && !AnnouncesChange(bs', langs, folders, assets)
  {
    var init := InitBundles(langs, folders, assets);
    if NeedsChange(bs, langs) && init.Ok? {
      assert forall i | 0 <= i < |langs| :: FirstLocale(init.value[i]) == Some(langs[i]);
    }
  }

  /** After a successful switch there is one bundle per language, in order, and the first is the current language. */
  lemma LanguageChangeFollowsRequest(bs: seq<Entry>, langs: seq<Lang>, folders: map<Lang, seq<Handle>>, assets: map<Handle, Resource>)
    requires InitBundles(langs, folders, assets).Ok?
    ensures var bs' := LanguageChange(bs, langs, folders, assets);
      && |bs'| == |langs|
      && (forall i | 0 <= i < |langs| :: FirstLocale(bs'[i]) == Some(langs[i]))
  {
    var init := InitBundles(langs, folders, assets);
    assert forall i | 0 <= i < |langs| :: FirstLocale(init.value[i]) == Some(langs[i]);
  }

  /** Freshly built bundles are fully loaded exactly when every file of every requested folder is already available. */
  lemma FreshBundlesLoadedIffAvailable(langs: seq<Lang>, folders: map<Lang, seq<Handle>>, assets: map<Handle, Resource>)
    requires InitBundles(langs, folders, assets).Ok?
    ensures FullyLoaded(InitBundles(langs, folders, assets).value) <==>
      forall i, j | 0 <= i < |langs| && 0 <= j < |folders[langs[i]]| :: folders[langs[i]][j] in assets
  {
    var nb := InitBundles(langs, folders, assets).value;
    assert forall i, j | 0 <= i < |langs| && 0 <= j < |folders[langs[i]]| :: nb[i].handles[j] == Tracked(folders[langs[i]][j] in assets, folders[langs[i]][j]);
  }

  /** Outcome of `remove_tracked_handle`. */
  datatype Removal =
    | NotTracked                  // no bundle tracks the file: `None`, nothing changed
    | Unimplemented(index: nat)   // the file was dropped from bundle `index`, whose reload ends in `todo!()`

  // ---------------------------------------------------------------------------
  // The localisation resource

  class I18N {
    const rootPath: Path
    var bundles: seq<Entry>
    var changedEvents: nat     // language-changed events sent so far

    constructor (rootPath: Path)
      ensures this.rootPath == rootPath && bundles == [] && changedEvents == 0
    {
      this.rootPath := rootPath;
      bundles, changedEvents := [], 0;
    }

    function RemainingToLoad(): nat
      reads this
    {
      Remaining(bundles)
    }

    predicate IsFullyLoaded()
      reads this
    {
      FullyLoaded(bundles)
    }

    /**
     * A language file became available or changed: add its contents to the
     * first bundle that tracks it (overriding if it was already loaded), mark
     * it loaded, and announce a language change once everything is loaded.
     */
    method UpdateBundleForMatchingHandleAsset(h: Handle, assets: map<Handle, Resource>)
      modifies this
      ensures bundles == AssetUpdated(old(bundles), h, assets)
      ensures changedEvents == old(changedEvents) + if h in assets && FullyLoaded(bundles) then 1 else 0
    {
      if h !in assets {
        return;
      }
      var k := 0;
      while k < |bundles|
        invariant 0 <= k <= |bundles| && bundles == old(bundles)
        invariant forall i | 0 <= i < k :: Find(bundles[i].handles, h).None?
      {
        var j := Find(bundles[k].handles, h);
        if j.Some? {
          bundles := bundles[k := Marked(bundles[k], j.value, assets[h])];
          break;
        }
        k := k + 1;
      }
      if IsFullyLoaded() {
        changedEvents := changedEvents + 1;
      }
    }

    /** `reload_bundle_assets_at`: a fresh bundle for the same locales, refilled from the available files. */
    method ReloadBundleAssetsAt(idx: nat, assets: map<Handle, Resource>)
      requires idx < |bundles|
      modifies this
      ensures bundles == old(bundles)[idx := old(bundles[idx]).(bundle := Reloaded(Bundle(old(bundles[idx]).bundle.locales, map[]), old(bundles[idx]).handles, assets))]
      ensures changedEvents == old(changedEvents) + if FullyLoaded(bundles) then 1 else 0
    {
      var hs := bundles[idx].handles;
      var b := Bundle(bundles[idx].bundle.locales, map[]);
      for j := 0 to |hs|
        invariant b == Reloaded(Bundle(bundles[idx].bundle.locales, map[]), hs[..j], assets)
      {
        assert hs[..j + 1][..j] == hs[..j];
        if hs[j].handle in assets {
          b := AddedOverriding(b, assets[hs[j].handle]);
        }
      }
      assert hs[..|hs|] == hs;
      bundles := bundles[idx := bundles[idx].(bundle := b)];
      if IsFullyLoaded() {
        changedEvents := changedEvents + 1;
      }
    }

    /**
     * A language file was removed: drop it from the first bundle that tracks
     * it and reload that bundle, which then stops at an unimplemented point.
     */
    method RemoveTrackedHandle(h: Handle, assets: map<Handle, Resource>) returns (r: Removal)
      modifies this
      ensures FirstTracking(old(bundles), h).None? <==> r == NotTracked
      ensures r == NotTracked ==> bundles == old(bundles) && changedEvents == old(changedEvents)
      ensures r.Unimplemented? ==>
        && FirstTracking(old(bundles), h) == Some(r.index)
        && bundles == HandleRemoved(old(bundles), h, assets)
        && changedEvents == old(changedEvents) + if FullyLoaded(bundles) then 1 else 0
    {
      var k := 0;
      while k < |bundles|
        invariant 0 <= k <= |bundles| && bundles == old(bundles) && changedEvents == old(changedEvents)
        invariant forall i | 0 <= i < k :: Find(bundles[i].handles, h).None?
      {
        var j := Find(bundles[k].handles, h);
        if j.Some? {
          FirstTrackingAt(bundles, h, k);
          bundles := bundles[k := bundles[k].(handles := SwapRemove(bundles[k].handles, j.value))];
          ReloadBundleAssetsAt(k, assets);
          return Unimplemented(k);
        }
        k := k + 1;
      }
      return NotTracked;
    }

    /**
     * Switches to `langs`, in order of preference, unless the bundles are
     * already for exactly those languages. Fails, leaving everything as it
     * was, when some language's folder cannot be loaded.
     */
    method ChangeLanguageTo(langs: seq<Lang>, folders: map<Lang, seq<Handle>>, assets: map<Handle, Resource>)
      returns (r: Result<(), Lang>)
      modifies this
      ensures bundles == LanguageChange(old(bundles), langs, folders, assets)
      ensures changedEvents == old(changedEvents) + if AnnouncesChange(old(bundles), langs, folders, assets) then 1 else 0
      ensures r.Err? <==> NeedsChange(old(bundles), langs) && InitBundles(langs, folders, assets).Err?
      ensures r.Err? ==> r.error == InitBundles(langs, folders, assets).error
    {
      if !NeedsChange(bundles, langs) {
        return Ok(());
      }
      var built := InitBundles(langs, folders, assets);
      if built.Err? {
        return Err(built.error);
      }
      bundles := built.value;
      if IsFullyLoaded() {
        changedEvents := changedEvents + 1;
      }
      return Ok(());
    }

    /** `language_asset_loaded`: applies the asset events in order; true when a removal stopped at the unimplemented reload. */
    method LanguageAssetLoaded(evs: seq<AssetEvent>, assets: map<Handle, Resource>) returns (halted: bool)
      modifies this
      ensures (bundles, changedEvents, halted) == EventsApplied(old(bundles), old(changedEvents), evs, assets)
    {
      var i := 0;
      while i < |evs|
        invariant 0 <= i <= |evs|
        invariant EventsApplied(bundles, changedEvents, evs[i..], assets) == EventsApplied(old(bundles), old(changedEvents), evs, assets)
      {
        assert evs[i..][1..] == evs[i + 1..];
        match evs[i] {
          case Removed(h) =>
            var r := RemoveTrackedHandle(h, assets);
            if r.Unimplemented? {
              return true;
            }
          case _ =>
            UpdateBundleForMatchingHandleAsset(evs[i].handle, assets);
        }
        i := i + 1;
      }
      return false;
    }

    /** `change_language`: of the requests this frame, only the last one is acted on; a failure is only logged. */
    method ChangeLanguage(requests: seq<seq<Lang>>, folders: map<Lang, seq<Handle>>, assets: map<Handle, Resource>)
      modifies this
      ensures requests == [] ==> bundles == old(bundles) && changedEvents == old(changedEvents)
      ensures requests != [] ==>
        var langs := requests[|requests| - 1];
        && bundles == LanguageChange(old(bundles), langs, folders, assets)
        && changedEvents == old(changedEvents) + if AnnouncesChange(old(bundles), langs, folders, assets) then 1 else 0
    {
      if requests != [] {
        var _ := ChangeLanguageTo(requests[|requests| - 1], folders, assets);
      }
    }

    /** `get`: the message's text from the first bundle that has a value for it, or a visible placeholder. */
    function Get(id: string): (text: string)
      reads this
      ensures FirstValue(bundles, id).None? ==> text == MissingMessage(id)
      ensures FirstValue(bundles, id).Some? ==> text == FirstValue(bundles, id).value
    {
      match FirstValue(bundles, id)
      case Some(t) => t
      case None => MissingMessage(id)
    }

    /** `get_attr`: the attribute's text from the first bundle that has it, or a visible placeholder. */
    function GetAttr(id: string, attr: string): (text: string)
      reads this
      ensures FirstAttribute(bundles, id, attr).None? ==> text == MissingAttribute(id, attr)
      ensures FirstAttribute(bundles, id, attr).Some? ==> text == FirstAttribute(bundles, id, attr).value
    {
      match FirstAttribute(bundles, id, attr)
      case Some(t) => t
      case None => MissingAttribute(id, attr)
    }

    /** `get_current_language`: the first locale of the first bundle, or the undetermined language. */
    function GetCurrentLanguage(): (l: Lang)
      reads this
      ensures bundles != [] && FirstLocale(bundles[0]).Some? ==> l == bundles[0].bundle.locales[0]
      ensures (bundles == [] || FirstLocale(bundles[0]).None?) ==> l == DefaultLang
    {
      if bundles != [] && FirstLocale(bundles[0]).Some? then bundles[0].bundle.locales[0] else DefaultLang
    }
  }
}
