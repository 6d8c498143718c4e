/**
 The shared image-state store: at most one current image, plus the browser's
 registry of object URLs that the store acquires and revokes for previews.
 The store is a plain value and each mutator a function from the state before
 to the state after.
 */
module ImageStore {

  datatype Option<T> = None | Some(value: T)

  /** A file the user picked; the store reads only its name. */
  datatype File = File(name: string, contents: seq<bv8>)

  /** An object URL, identified by the serial number the browser issued it under. */
  type Url = nat

  /**
   The browser's object-URL registry: the URLs currently live, and the next
   serial number it will issue.
   */
  datatype UrlRegistry = UrlRegistry(live: set<Url>, next: Url)

  /** Every live URL was issued before `next`, so `next` is fresh. */
  predicate RegistryValid(reg: UrlRegistry)
  {
    forall u :: u in reg.live ==> u < reg.next
  }

  /**
   Issues a URL that was never issued before (so it is not live) and makes it
   live; later calls never issue it again.
   */
  function CreateObjectUrl(reg: UrlRegistry): (res: (Url, UrlRegistry))
    requires RegistryValid(reg)
    ensures res.0 !in reg.live
    ensures reg.next <= res.0 < res.1.next
    ensures res.1.live == reg.live + {res.0}
    ensures RegistryValid(res.1)
  {
    (reg.next, UrlRegistry(reg.live + {reg.next}, reg.next + 1))
  }

  /** Makes `url` no longer live; revoking a URL that is not live changes nothing. */
  function RevokeObjectUrl(reg: UrlRegistry, url: Url): (reg': UrlRegistry)
    ensures reg'.live == reg.live - {url}
    ensures url !in reg.live ==> reg' == reg
    ensures RegistryValid(reg) ==> RegistryValid(reg')
  {
    if url in reg.live then reg.(live := reg.live - {url}) else reg
  }

  /** The current image: the picked file, its preview URL and its display name. */
  datatype ImageData = ImageData(file: File, previewUrl: Url, fileName: string)

  datatype Store = Store(currentImage: Option<ImageData>, urls: UrlRegistry)

  /** The registry is consistent and the current preview, if any, is live. */
  predicate Valid(s: Store)
  {
    && RegistryValid(s.urls)
    && (s.currentImage.Some? ==> s.currentImage.value.previewUrl in s.urls.live)
  }

  /** The provider's initial state: no image, no URL issued. */
  function Init(): (s: Store)
    ensures s.currentImage.None?
    ensures s.urls.live == {}
    ensures Valid(s)
  {
    Store(None, UrlRegistry({}, 0))
  }

  /**
   Makes `file` the current image with a newly created preview URL. The
   previous image's preview URL is not revoked.
   */
  function SetImage(s: Store, file: File): (s': Store)
    requires Valid(s)
    ensures s'.currentImage.Some?
    ensures s'.currentImage.value.file == file
    ensures s'.currentImage.value.fileName == file.name
    ensures s'.currentImage.value.previewUrl !in s.urls.live
    ensures s.urls.next <= s'.currentImage.value.previewUrl < s'.urls.next
    ensures s'.urls.live == s.urls.live + {s'.currentImage.value.previewUrl}
    ensures |s'.urls.live| == |s.urls.live| + 1
    ensures Valid(s')
  {
    var (previewUrl, urls') := CreateObjectUrl(s.urls);
    Store(Some(ImageData(file, previewUrl, file.name)), urls')
  }

  /** Drops the current image, revoking its preview URL if there is one. */
  function ClearImage(s: Store): (s': Store)
    ensures s'.currentImage.None?
    ensures s.currentImage.Some? ==> s'.urls.live == s.urls.live - {s.currentImage.value.previewUrl}
    ensures s.currentImage.None? ==> s' == s
    ensures Valid(s) && s.currentImage.Some? ==> |s'.urls.live| == |s.urls.live| - 1
    ensures Valid(s) ==> Valid(s')
  {
    match s.currentImage
    case Some(image) => Store(None, RevokeObjectUrl(s.urls, image.previewUrl))
    case None => s
  }

  /** Clearing twice is clearing once; the second call revokes nothing. */
  lemma ClearImageIdempotent(s: Store)
    ensures ClearImage(ClearImage(s)) == ClearImage(s)
  {
  }

  /** A user action on the store. */
  datatype Action = Select(file: File) | Clear

  function Step(s: Store, a: Action): (s': Store)
    requires Valid(s)
    ensures Valid(s')
  {
    match a
    case Select(file) => SetImage(s, file)
    case Clear => ClearImage(s)
  }

  /** The store after `actions`, taken in order, starting from `s`. */
  function Run(s: Store, actions: seq<Action>): (s': Store)
    requires Valid(s)
    ensures Valid(s')
    ensures s.urls.next <= s'.urls.next
    decreases |actions|
  {
    if actions == [] then s
    else Step(Run(s, actions[..|actions| - 1]), actions[|actions| - 1])
  }

  /**
   Whatever came before, the store shows an image exactly when the last
   action was a selection, and then it shows that selection's file.
   */
  lemma LastActionDecides(s: Store, actions: seq<Action>)
    requires Valid(s)
    requires actions != []
    ensures Run(s, actions).currentImage.Some? <==> actions[|actions| - 1].Select?
    ensures actions[|actions| - 1].Select? ==>
              Run(s, actions).currentImage.value.file == actions[|actions| - 1].file
  {
  }

  /**
   Replacing the current image leaves the old preview URL live although the
   store no longer refers to it.
   */
  lemma SetImageKeepsPreviousUrl(s: Store, file: File)
    requires Valid(s)
    requires s.currentImage.Some?
    ensures s.currentImage.value.previewUrl in SetImage(s, file).urls.live
    ensures s.currentImage.value.previewUrl != SetImage(s, file).currentImage.value.previewUrl
  {
  }

  /** Two selections in a row from the initial state leave two live preview URLs. */
  lemma TwoSelectionsLeaveTwoLiveUrls(a: File, b: File)
    ensures |Run(Init(), [Select(a), Select(b)]).urls.live| == 2
  {
    var actions := [Select(a), Select(b)];
    assert actions[..1] == [Select(a)];
    assert actions[..1][..0] == [];
    assert Run(Init(), actions[..1][..0]) == Init();
    var first := Run(Init(), actions[..1]);
    assert first == SetImage(Init(), a);
    assert Run(Init(), actions) == SetImage(first, b);
  }
}
