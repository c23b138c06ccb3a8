/** The offline language-pack registry and the offline translation gate.
    Browser local storage is modelled as a string-to-string map owned by a
    `PackStore` object; a pack is installed when its key holds "true". */
module OfflineService {
  import opened Wrappers
  import opened Types

  const StoragePrefix: string := "polyglot_offline_pack_"

  /** The storage key of a language's pack flag. */
  function PackKey(lang: Language): (k: string)
    ensures |k| > |StoragePrefix| && k[..|StoragePrefix|] == StoragePrefix
  {
    StoragePrefix + LanguageName(lang)
  }

  /** Different languages never share a key. */
  lemma PackKeyInjective(a: Language, b: Language)
    requires PackKey(a) == PackKey(b)
    ensures a == b
  {
    assert LanguageName(a) == PackKey(a)[|StoragePrefix|..];
    assert LanguageName(b) == PackKey(b)[|StoragePrefix|..];
    NameInjective(a, b);
  }

  /** A pack counts as installed exactly when its key holds "true". */
  predicate Installed(store: map<string, string>, lang: Language)
  {
    PackKey(lang) in store && store[PackKey(lang)] == "true"
  }

  /** The store after a pack download has completed. */
  function WithPack(store: map<string, string>, lang: Language): (s: map<string, string>)
    ensures Installed(s, lang)
    ensures forall k :: k != PackKey(lang) ==> (k in s <==> k in store)
    ensures forall k :: k in s && k != PackKey(lang) ==> s[k] == store[k]
  {
    store[PackKey(lang) := "true"]
  }

  /** The store after a pack has been deleted. */
  function WithoutPack(store: map<string, string>, lang: Language): (s: map<string, string>)
    ensures !Installed(s, lang) && PackKey(lang) !in s
    ensures forall k :: k != PackKey(lang) ==> (k in s <==> k in store)
    ensures forall k :: k in s ==> s[k] == store[k]
  {
    store - {PackKey(lang)}
  }

  /** Only the exact value "true" marks a pack installed; any other value
      stored under its key (say "yes" or "1") does not. */
  lemma OnlyTrueMarksInstalled(store: map<string, string>, lang: Language, v: string)
    ensures Installed(store[PackKey(lang) := v], lang) <==> v == "true"
  {
  }

  /** Installing or removing one language leaves every other language's
      status as it was. */
  lemma OtherPacksUnaffected(store: map<string, string>, lang: Language, other: Language)
    requires other != lang
    ensures Installed(WithPack(store, lang), other) == Installed(store, other)
    ensures Installed(WithoutPack(store, lang), other) == Installed(store, other)
  {
    if PackKey(other) == PackKey(lang) {
      PackKeyInjective(other, lang);
    }
  }

  /** Downloading twice is the same as downloading once; deleting twice is
      the same as deleting once. */
  lemma InstallRemoveIdempotent(store: map<string, string>, lang: Language)
    ensures WithPack(WithPack(store, lang), lang) == WithPack(store, lang)
    ensures WithoutPack(WithoutPack(store, lang), lang) == WithoutPack(store, lang)
  {
  }

  /** The error thrown when the target language has no pack. */
  function MissingPackMessage(lang: Language): string
  {
    "Offline pack for " + LanguageName(lang) + " is missing. Please " + "download" + " it in settings."
  }

  /** The missing-pack message names the language and points the user to the
      download action. */
  lemma MissingPackMessageIsActionable(lang: Language)
    ensures Contains(MissingPackMessage(lang), LanguageName(lang))
    ensures Contains(MissingPackMessage(lang), "download")
  {
    var name, verb := LanguageName(lang), "download";
    var head, middle, tail := "Offline pack for ", " is missing. Please ", " it in settings.";
    assert MissingPackMessage(lang) == head + name + (middle + verb + tail);
    ContainsMiddle(head, name, middle + verb + tail);
    assert MissingPackMessage(lang) == (head + name + middle) + verb + tail;
    ContainsMiddle(head + name + middle, verb, tail);
  }

  const PlaceholderTail: string :=
    "]\n\nThis text is a placeholder demonstrating that the offline capability was triggered successfully. In a full build, this would use local ML models."

  /** The fixed reply of the placeholder offline pipeline. */
  function PlaceholderReply(lang: Language): ScanReply
  {
    ScanReply(
      "[Offline Mode] Text extracted from image...",
      "[Offline Translation to " + LanguageName(lang) + PlaceholderTail,
      Some("Detected (Local)"))
  }

  /** The placeholder names the target language in its translation and
      labels the detected language as local. */
  lemma PlaceholderNamesLanguage(lang: Language)
    ensures Contains(PlaceholderReply(lang).translatedText, LanguageName(lang))
    ensures PlaceholderReply(lang).detectedLanguage == Some("Detected (Local)")
  {
    ContainsMiddle("[Offline Translation to ", LanguageName(lang), PlaceholderTail);
  }

  /** What the offline translation yields against a given store: the
      missing-pack error when the flag is absent, else the placeholder. */
  function OfflineOutcome(store: map<string, string>, lang: Language): (r: Result<ScanReply>)
    ensures r.Failure? <==> !Installed(store, lang)
    ensures r.Failure? ==> r.message == MissingPackMessage(lang)
    ensures r.Success? ==> r.value == PlaceholderReply(lang)
  {
    if Installed(store, lang) then Success(PlaceholderReply(lang))
    else Failure(MissingPackMessage(lang))
  }

  /** The persistent pack registry: local storage under the pack prefix. */
  class PackStore {
    var store: map<string, string>

    constructor (persisted: map<string, string>)
      ensures store == persisted
    {
      store := persisted;
    }

    /** Whether the pack for `lang` is installed: the stored value must be
        exactly "true"; a missing key reads as not installed. */
    function IsPackDownloaded(lang: Language): (downloaded: bool)
      reads this
      ensures downloaded <==> PackKey(lang) in store && store[PackKey(lang)] == "true"
      ensures PackKey(lang) !in store ==> !downloaded
    {
      Installed(store, lang)
    }

    /** Marks the pack installed once the (simulated) download is done. */
    method DownloadPack(lang: Language)
      modifies this
      ensures store == WithPack(old(store), lang)
      ensures IsPackDownloaded(lang)
    {
      store := store[PackKey(lang) := "true"];
    }

    /** Removes the pack's key. */
    method DeletePack(lang: Language)
      modifies this
      ensures store == WithoutPack(old(store), lang)
      ensures !IsPackDownloaded(lang)
    {
      store := store - {PackKey(lang)};
    }

    /** The offline translation: fails naming the language when its pack is
        missing, otherwise yields the placeholder reply. The image is not
        looked at, and the registry is only read. */
    method OfflineScanAndTranslate(image: string, lang: Language) returns (r: Result<ScanReply>)
      ensures r == OfflineOutcome(store, lang)
    {
      if !IsPackDownloaded(lang) {
        return Failure(MissingPackMessage(lang));
      }
      r := Success(PlaceholderReply(lang));
    }
  }

  /** After a download completes, the offline translation for that language
      succeeds; after a delete, it fails again. */
  method InstallThenTranslate(packs: PackStore, lang: Language, image: string)
      returns (afterInstall: Result<ScanReply>, afterDelete: Result<ScanReply>)
    modifies packs
    ensures afterInstall == Success(PlaceholderReply(lang))
    ensures afterDelete == Failure(MissingPackMessage(lang))
  {
    packs.DownloadPack(lang);
    afterInstall := packs.OfflineScanAndTranslate(image, lang);
    packs.DeletePack(lang);
    afterDelete := packs.OfflineScanAndTranslate(image, lang);
  }
}
