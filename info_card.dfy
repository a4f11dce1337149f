/**
 * The dismissible info card of the sidebar and its stacked media preview.
 *
 * A card dismissed "once" comes back on the next mount; one dismissed
 * "forever" records that in the browser's local storage under its key,
 * which is modelled as a map. The card stays transparent until every
 * displayed picture has reported that it loaded.
 */
module InfoCard {
  import opened Wrappers

  datatype DismissType = Once | Forever

  const MissingKeyError := "A storageKey must be provided when using dismissType=\"forever\""
  const DismissedValue := "dismissed"
  /** At most this many media are stacked in the preview. */
  const MaxDisplayed: nat := 3

  /** A usable storage key: present and not the empty string. */
  predicate HasKey(storageKey: Option<string>) {
    storageKey != None && storageKey.value != ""
  }

  predicate StoredDismissed(storage: map<string, string>, key: string) {
    key in storage && storage[key] == DismissedValue
  }

  datatype Mount = Throws(message: string) | Mounted(dismissed: bool)

  /** Mounting a card: "forever" without a key is an error; otherwise the
      card starts dismissed only in a browser, only for "forever", and only
      when the storage says so. */
  function MountCard(dismissType: DismissType, storageKey: Option<string>, inBrowser: bool,
                     storage: map<string, string>): (m: Mount)
    ensures m.Throws? <==> dismissType == Forever && !HasKey(storageKey)
    ensures m.Throws? ==> m.message == MissingKeyError
    ensures m.Mounted? ==>
              (m.dismissed <==> inBrowser && dismissType == Forever && HasKey(storageKey)
                                && StoredDismissed(storage, storageKey.value))
  {
    match dismissType
    case Once => Mounted(false)
    case Forever =>
      if !HasKey(storageKey) then Throws(MissingKeyError)
      else if !inBrowser then Mounted(false)
      else Mounted(StoredDismissed(storage, storageKey.value))
  }

  /** A "once" card always starts visible, whatever the storage holds. */
  lemma OnceStartsVisible(storageKey: Option<string>, inBrowser: bool, storage: map<string, string>)
    ensures MountCard(Once, storageKey, inBrowser, storage) == Mounted(false)
  {
  }

  datatype MediaType = Image | Video

  /** A media entry as given to the preview; the type may be left out. */
  datatype MediaItem = MediaItem(mediaType: Option<MediaType>, src: string, alt: Option<string>)

  /** A media entry as drawn, with its type settled. */
  datatype DisplayedItem = DisplayedItem(mediaType: MediaType, src: string, alt: Option<string>)

  /** The drawn media: the first three at most, a missing type read as an
      image. */
  function DisplayMedia(media: seq<MediaItem>): (r: seq<DisplayedItem>)
    ensures |r| == if |media| < MaxDisplayed then |media| else MaxDisplayed
    ensures forall k :: 0 <= k < |r| ==>
              r[k].src == media[k].src && r[k].alt == media[k].alt &&
              r[k].mediaType == media[k].mediaType.GetOr(Image)
  {
    var n := if |media| < MaxDisplayed then |media| else MaxDisplayed;
    seq(n, k requires 0 <= k < n => DisplayedItem(media[k].mediaType.GetOr(Image), media[k].src, media[k].alt))
  }

  /** The sources of drawn media, as a set. */
  function Sources(ds: seq<DisplayedItem>): (r: set<string>)
    ensures forall k :: 0 <= k < |ds| ==> ds[k].src in r
    ensures forall s :: s in r ==> exists k :: 0 <= k < |ds| && ds[k].src == s
    ensures |r| <= |ds|
  {
    if ds == [] then {}
    else
      var rest := Sources(ds[1..]);
      assert forall k :: 1 <= k < |ds| ==> ds[k] == ds[1..][k - 1];
      {ds[0].src} + rest
  }

  predicate DistinctSources(ds: seq<DisplayedItem>) {
    forall i, j :: 0 <= i < j < |ds| ==> ds[i].src != ds[j].src
  }

  /** Distinct sources are as many as the drawn media. */
  lemma {:induction false} DistinctSourcesCount(ds: seq<DisplayedItem>)
    requires DistinctSources(ds)
    ensures |Sources(ds)| == |ds|
  {
    if ds != [] {
      assert DistinctSources(ds[1..]) by {
        forall i, j | 0 <= i < j < |ds[1..]| ensures ds[1..][i].src != ds[1..][j].src {
          assert ds[1..][i] == ds[i + 1] && ds[1..][j] == ds[j + 1];
        }
      }
      DistinctSourcesCount(ds[1..]);
      forall k | 0 <= k < |ds[1..]| ensures ds[1..][k].src != ds[0].src {
        assert ds[1..][k] == ds[k + 1];
      }
      assert ds[0].src !in Sources(ds[1..]);
    }
  }

  /** A subset as large as its superset is the whole superset. */
  lemma {:induction false} FullSubsetIsEqual(a: set<string>, b: set<string>)
    requires a <= b && |a| >= |b|
    ensures a == b
  {
    if a != b {
      var x :| x in b && x !in a;
      assert a <= b - {x};
      SubsetCard(a, b - {x});
      assert false;
    }
  }

  lemma {:induction false} SubsetCard(a: set<string>, b: set<string>)
    requires a <= b
    ensures |a| <= |b|
    decreases |b|
  {
    if b != {} {
      var x :| x in b;
      SubsetCard(a - {x}, b - {x});
    }
  }

  /** The check made after each load as written: as many sources loaded as
      media drawn. */
  predicate AllLoadedAsWritten(loaded: set<string>, media: seq<MediaItem>) {
    |loaded| == |DisplayMedia(media)|
  }

  /** The intended check: every drawn source has loaded. */
  predicate AllLoaded(loaded: set<string>, media: seq<MediaItem>) {
    Sources(DisplayMedia(media)) <= loaded
  }

  /** When the drawn media have distinct sources and only they have been
      reported, the two checks agree. */
  lemma ChecksAgreeOnDistinctSources(loaded: set<string>, media: seq<MediaItem>)
    requires DistinctSources(DisplayMedia(media))
    requires loaded <= Sources(DisplayMedia(media))
    ensures AllLoadedAsWritten(loaded, media) <==> AllLoaded(loaded, media)
  {
    var ds := DisplayMedia(media);
    DistinctSourcesCount(ds);
    if AllLoadedAsWritten(loaded, media) {
      FullSubsetIsEqual(loaded, Sources(ds));
    }
    if AllLoaded(loaded, media) {
      assert loaded == Sources(ds);
    }
  }

  /** Two drawn media sharing one source: however many loads are
      reported, the check as written never passes, so the card stays
      transparent; the intended check passes once that source loads. */
  lemma DuplicateSourceNeverLoadsAsWritten(src: string, loaded: set<string>)
    requires loaded <= {src}
    ensures !AllLoadedAsWritten(loaded, [MediaItem(None, src, None), MediaItem(None, src, None)])
    ensures AllLoaded({src}, [MediaItem(None, src, None), MediaItem(None, src, None)])
  {
    var media := [MediaItem(None, src, None), MediaItem(None, src, None)];
    SubsetCard(loaded, {src});
    assert |DisplayMedia(media)| == 2;
  }

  /** The vertical lift of the drawn item at `index` while hovering. */
  function TranslateY(isHovered: bool, mediaCount: nat, index: nat): (y: int)
    ensures !isHovered ==> y == 0
    ensures isHovered && mediaCount == 1 ==> y == -5
    ensures isHovered && mediaCount != 1 ==> y == (if index == 0 then -10 else if index == 1 then -5 else 0)
  {
    if !isHovered then 0
    else if mediaCount == 1 then -5
    else if index == 0 then -10
    else if index == 1 then -5
    else 0
  }

  /** In a stack of several, an item is lifted at least as far as every
      item drawn after it. */
  lemma FrontLiftedMost(mediaCount: nat, i: nat, j: nat)
    requires mediaCount != 1 && i <= j
    ensures TranslateY(true, mediaCount, i) <= TranslateY(true, mediaCount, j)
    ensures -10 <= TranslateY(true, mediaCount, i) <= 0
  {
  }

  class Card {
    const dismissType: DismissType
    const storageKey: Option<string>
    var isHovered: bool
    var isDismissed: bool
    var allImagesLoaded: bool
    /** The browser's local storage. */
    var storage: map<string, string>
    /** The preview's media, and the sources reported loaded since the
        media list last changed length. */
    var media: seq<MediaItem>
    var loaded: set<string>

    predicate Valid()
      reads this
    {
      && (dismissType == Forever ==> HasKey(storageKey))
      && (|media| == 0 ==> allImagesLoaded)
    }

    /** The card's body is drawn only while not dismissed. */
    predicate BodyShown()
      reads this
    {
      !isDismissed
    }

    /** The body's opacity: transparent until the media have loaded. */
    function Opacity(): (o: int)
      reads this
      ensures o == 1 <==> allImagesLoaded
      ensures o == 0 <==> !allImagesLoaded
    {
      if allImagesLoaded then 1 else 0
    }

    /** A mount that does not throw; the preview, when drawn, then waits
        for its media. */
    constructor(dismissType: DismissType, storageKey: Option<string>, inBrowser: bool,
                storage: map<string, string>, media: seq<MediaItem>)
      requires MountCard(dismissType, storageKey, inBrowser, storage).Mounted?
      ensures Valid()
      ensures this.dismissType == dismissType && this.storageKey == storageKey
      ensures isDismissed == MountCard(dismissType, storageKey, inBrowser, storage).dismissed
      ensures this.storage == storage && this.media == media && !isHovered
      ensures allImagesLoaded <==> isDismissed || |media| == 0
      ensures loaded == {}
    {
      this.dismissType := dismissType;
      this.storageKey := storageKey;
      isHovered := false;
      var dismissed := MountCard(dismissType, storageKey, inBrowser, storage).dismissed;
      isDismissed := dismissed;
      this.storage := storage;
      this.media := media;
      loaded := {};
      allImagesLoaded := dismissed || |media| == 0;
    }

    method MouseEnter()
      requires Valid()
      modifies this
      ensures Valid()
      ensures isHovered
      ensures isDismissed == old(isDismissed) && allImagesLoaded == old(allImagesLoaded)
      ensures storage == old(storage) && media == old(media) && loaded == old(loaded)
    {
      isHovered := true;
    }

    method MouseLeave()
      requires Valid()
      modifies this
      ensures Valid()
      ensures !isHovered
      ensures isDismissed == old(isDismissed) && allImagesLoaded == old(allImagesLoaded)
      ensures storage == old(storage) && media == old(media) && loaded == old(loaded)
    {
      isHovered := false;
    }

    /** Dismissing hides the card; a "forever" card also records it. */
    method Dismiss()
      requires Valid()
      modifies this
      ensures Valid()
      ensures isDismissed && !BodyShown()
      ensures dismissType == Forever ==> storage == old(storage)[storageKey.value := DismissedValue]
      ensures dismissType == Once ==> storage == old(storage)
      ensures isHovered == old(isHovered) && allImagesLoaded == old(allImagesLoaded)
      ensures media == old(media) && loaded == old(loaded)
    {
      isDismissed := true;
      if dismissType == Forever {
        storage := storage[storageKey.value := DismissedValue];
      }
    }

    /** A new media list; the loading state restarts only when its length
        changes. */
    method SetMedia(newMedia: seq<MediaItem>)
      requires Valid()
      modifies this
      ensures Valid()
      ensures media == newMedia
      ensures |newMedia| != |old(media)| && |newMedia| > 0 ==> !allImagesLoaded && loaded == {}
      ensures |newMedia| != |old(media)| && |newMedia| == 0 ==> allImagesLoaded && loaded == old(loaded)
      ensures |newMedia| == |old(media)| ==> allImagesLoaded == old(allImagesLoaded) && loaded == old(loaded)
      ensures isHovered == old(isHovered) && isDismissed == old(isDismissed) && storage == old(storage)
    {
      if |newMedia| != |media| {
        if |newMedia| > 0 {
          allImagesLoaded := false;
          loaded := {};
        } else {
          allImagesLoaded := true;
        }
      }
      media := newMedia;
    }

    /** A drawn item reports that it loaded, as written: the card becomes
        opaque once as many sources have loaded as items are drawn. */
    method HandleMediaLoadAsWritten(src: string)
      requires Valid() && src in Sources(DisplayMedia(media))
      modifies this
      ensures Valid()
      ensures loaded == old(loaded) + {src}
      ensures allImagesLoaded <==> old(allImagesLoaded) || AllLoadedAsWritten(loaded, media)
      ensures isHovered == old(isHovered) && isDismissed == old(isDismissed)
      ensures storage == old(storage) && media == old(media)
    {
      var nowLoaded := loaded + {src};
      var done := AllLoadedAsWritten(nowLoaded, media);
      loaded := nowLoaded;
      allImagesLoaded := allImagesLoaded || done;
    }

    /** A drawn item reports that it loaded: the card becomes opaque once
        every drawn source has loaded. */
    method HandleMediaLoad(src: string)
      requires Valid() && src in Sources(DisplayMedia(media))
      modifies this
      ensures Valid()
      ensures loaded == old(loaded) + {src}
      ensures allImagesLoaded <==> old(allImagesLoaded) || AllLoaded(loaded, media)
      ensures isHovered == old(isHovered) && isDismissed == old(isDismissed)
      ensures storage == old(storage) && media == old(media)
    {
      var nowLoaded := loaded + {src};
      var done := AllLoaded(nowLoaded, media);
      loaded := nowLoaded;
      allImagesLoaded := allImagesLoaded || done;
    }
  }

  /** A card dismissed "forever" starts dismissed on its next mount in a
      browser. */
  lemma DismissForeverPersists(key: string, storage: map<string, string>)
    requires key != ""
    ensures MountCard(Forever, Some(key), true, storage[key := DismissedValue]) == Mounted(true)
  {
  }
}
