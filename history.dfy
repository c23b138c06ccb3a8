/** The scan history of the application: an ordered list of scan records.
    A capture appends a pending record whose mode follows the connectivity
    flag; when the chosen backend settles, the record with the capture's id
    is replaced by a complete or failed copy. */
module ScanHistory {
  import opened Wrappers
  import opened Types
  import OfflineService
  import GeminiService

  datatype Status = Scanning | Complete | Error
  datatype Mode = Online | Offline

  /** One capture and its translation state. */
  datatype ScanRecord = ScanRecord(
    id: string,
    timestamp: int,
    imageUrl: string,
    originalText: string,
    translatedText: string,
    targetLanguage: Language,
    detectedLanguage: Option<string>,
    status: Status,
    errorMessage: Option<string>,
    mode: Mode)

  const UnknownErrorMessage: string := "Unknown error occurred"

  /** The fields a settlement copies unchanged from the pending record. */
  predicate SameIdentity(a: ScanRecord, b: ScanRecord)
  {
    a.id == b.id && a.timestamp == b.timestamp && a.imageUrl == b.imageUrl
    && a.targetLanguage == b.targetLanguage && a.mode == b.mode
  }

  /** The pending record a capture appends. */
  function NewScan(id: string, timestamp: int, image: string, lang: Language, online: bool): (r: ScanRecord)
    ensures r.id == id && r.timestamp == timestamp && r.imageUrl == image && r.targetLanguage == lang
    ensures r.status == Scanning && r.originalText == "" && r.translatedText == ""
    ensures r.detectedLanguage.None? && r.errorMessage.None?
    ensures r.mode == Online <==> online
  {
    ScanRecord(id, timestamp, image, "", "", lang, None, Scanning, None, if online then Online else Offline)
  }

  /** The copy of a record after its backend settled: complete with the
      reply's texts, or failed with the error's message (a fallback text when
      that message is empty). */
  function Settle(m: ScanRecord, outcome: Result<ScanReply>): (r: ScanRecord)
    ensures SameIdentity(m, r) && r.status != Scanning
    ensures outcome.Success? ==>
              && r.status == Complete
              && r.originalText == outcome.value.originalText
              && r.translatedText == outcome.value.translatedText
              && r.detectedLanguage == outcome.value.detectedLanguage
              && r.errorMessage == m.errorMessage
    ensures outcome.Failure? ==>
              && r.status == Error
              && r.errorMessage == Some(if outcome.message == "" then UnknownErrorMessage else outcome.message)
              && r.originalText == m.originalText && r.translatedText == m.translatedText
              && r.detectedLanguage == m.detectedLanguage
  {
    match outcome
    case Success(reply) =>
      m.(status := Complete, originalText := reply.originalText,
         translatedText := reply.translatedText, detectedLanguage := reply.detectedLanguage)
    case Failure(message) =>
      m.(status := Error, errorMessage := Some(if message == "" then UnknownErrorMessage else message))
  }

  /** The list after a settlement: every record carrying `id` is replaced by
      its settled copy, every other record is kept, in order. */
  function MarkSettled(msgs: seq<ScanRecord>, id: string, outcome: Result<ScanReply>): (r: seq<ScanRecord>)
    ensures |r| == |msgs|
    ensures forall i :: 0 <= i < |r| ==> SameIdentity(msgs[i], r[i])
  {
    if msgs == [] then []
    else [if msgs[0].id == id then Settle(msgs[0], outcome) else msgs[0]]
         + MarkSettled(msgs[1..], id, outcome)
  }

  /** A settlement keeps the list's length and order, rewrites exactly the
      records with the matching id, and keeps their identifying fields. */
  lemma {:induction false} SettleOnlyTouchesId(msgs: seq<ScanRecord>, id: string, outcome: Result<ScanReply>)
    ensures |MarkSettled(msgs, id, outcome)| == |msgs|
    ensures forall i :: 0 <= i < |msgs| ==>
      MarkSettled(msgs, id, outcome)[i] == if msgs[i].id == id then Settle(msgs[i], outcome) else msgs[i]
  {
    if msgs != [] {
      SettleOnlyTouchesId(msgs[1..], id, outcome);
      var r := MarkSettled(msgs, id, outcome);
      forall i | 0 <= i < |msgs|
        ensures r[i] == if msgs[i].id == id then Settle(msgs[i], outcome) else msgs[i]
      {
        if i > 0 {
          assert r[i] == MarkSettled(msgs[1..], id, outcome)[i - 1];
          assert msgs[1..][i - 1] == msgs[i];
        }
      }
    }
  }

  /** No settlement writes `scanning`: a record still scanning afterwards is
      one that was not touched. */
  lemma NeverBackToScanning(msgs: seq<ScanRecord>, id: string, outcome: Result<ScanReply>)
    ensures |MarkSettled(msgs, id, outcome)| == |msgs|
    ensures forall i :: 0 <= i < |msgs| && MarkSettled(msgs, id, outcome)[i].status == Scanning ==>
              MarkSettled(msgs, id, outcome)[i] == msgs[i] && msgs[i].id != id
  {
    SettleOnlyTouchesId(msgs, id, outcome);
  }

  /** When exactly one record carries `id` (the id is fresh) and it is still
      scanning, exactly that record changes, and it leaves `scanning`. */
  lemma FreshIdChangesExactlyOne(msgs: seq<ScanRecord>, k: nat, outcome: Result<ScanReply>)
    requires k < |msgs| && msgs[k].status == Scanning
    requires forall i :: 0 <= i < |msgs| && i != k ==> msgs[i].id != msgs[k].id
    ensures var r := MarkSettled(msgs, msgs[k].id, outcome);
      |r| == |msgs| && r[k] != msgs[k] && r[k].status != Scanning && SameIdentity(msgs[k], r[k])
      && forall i :: 0 <= i < |msgs| && i != k ==> r[i] == msgs[i]
  {
    SettleOnlyTouchesId(msgs, msgs[k].id, outcome);
  }

  /** Settling a fresh id right after appending its record settles exactly
      the appended record. */
  lemma {:induction false} SettleAppended(msgs: seq<ScanRecord>, rec: ScanRecord, outcome: Result<ScanReply>)
    requires forall i :: 0 <= i < |msgs| ==> msgs[i].id != rec.id
    ensures MarkSettled(msgs + [rec], rec.id, outcome) == msgs + [Settle(rec, outcome)]
  {
    if msgs == [] {
      assert msgs + [rec] == [rec];
    } else {
      assert (msgs + [rec])[1..] == msgs[1..] + [rec];
      SettleAppended(msgs[1..], rec, outcome);
    }
  }

  /** The result the backend chosen by the connectivity flag yields: the
      remote call when online, the offline pack gate otherwise. */
  function BackendResult(
    online: bool,
    store: map<string, string>,
    apiKey: Option<string>,
    image: string,
    lang: Language,
    generate: (string, Language) -> GeminiService.ModelResponse,
    parse: string -> Option<GeminiService.RawReply>): (r: Result<ScanReply>)
    ensures !online ==> (r.Failure? <==> !OfflineService.Installed(store, lang))
    ensures !online && r.Failure? ==> r.message == OfflineService.MissingPackMessage(lang)
    ensures online && GeminiService.ApiKeyMissing(apiKey) ==> r == Failure(GeminiService.MissingKeyMessage)
    ensures online && !GeminiService.ApiKeyMissing(apiKey) && r.Failure? ==>
              r.message == GeminiService.GenericFailureMessage
    ensures r.Success? ==> r.value.translatedText != "" && r.value.originalText != ""
    ensures online ==> r == GeminiService.ScanAndTranslate(apiKey, image, lang, generate, parse)
    ensures !online ==> r == OfflineService.OfflineOutcome(store, lang)
    ensures !online && r.Success? ==> r.value == OfflineService.PlaceholderReply(lang)
    ensures online && r.Success? ==>
              var resp := generate(GeminiService.StripDataUrlPrefix(image), lang);
              && resp.Responded? && resp.text.Some? && parse(resp.text.value).Some?
              && r.value == GeminiService.NormalizeReply(parse(resp.text.value).value)
  {
    if online then GeminiService.ScanAndTranslate(apiKey, image, lang, generate, parse)
    else OfflineService.OfflineOutcome(store, lang)
  }

  /** Online, the model answers a Spanish scan with "Hola"/"Hello": the
      record ends complete with that translation. */
  lemma OnlineReplyCompletes(
    store: map<string, string>,
    apiKey: Option<string>,
    image: string,
    id: string,
    timestamp: int,
    text: string,
    generate: (string, Language) -> GeminiService.ModelResponse,
    parse: string -> Option<GeminiService.RawReply>)
    requires !GeminiService.ApiKeyMissing(apiKey) && text != ""
    requires generate(GeminiService.StripDataUrlPrefix(image), Spanish) == GeminiService.Responded(Some(text))
    requires parse(text) == Some(GeminiService.RawReply(Some("Hola"), Some("Hello"), None))
    ensures var r := Settle(NewScan(id, timestamp, image, Spanish, true),
                            BackendResult(true, store, apiKey, image, Spanish, generate, parse));
      r.status == Complete && r.originalText == "Hola" && r.translatedText == "Hello" && r.mode == Online
  {
  }

  /** Online, a transport failure ends the record failed with the generic
      message. */
  lemma TransportFailureFails(
    store: map<string, string>,
    apiKey: Option<string>,
    image: string,
    lang: Language,
    id: string,
    timestamp: int,
    generate: (string, Language) -> GeminiService.ModelResponse,
    parse: string -> Option<GeminiService.RawReply>)
    requires !GeminiService.ApiKeyMissing(apiKey)
    requires generate(GeminiService.StripDataUrlPrefix(image), lang) == GeminiService.TransportFailure
    ensures var r := Settle(NewScan(id, timestamp, image, lang, true),
                            BackendResult(true, store, apiKey, image, lang, generate, parse));
      r.status == Error && r.errorMessage == Some(GeminiService.GenericFailureMessage)
  {
  }

  /** Offline, a French scan without the French pack ends failed with a
      message naming French and the download action; with the pack it ends
      complete with the placeholder reply. */
  lemma OfflineFrenchScan(
    store: map<string, string>,
    apiKey: Option<string>,
    image: string,
    id: string,
    timestamp: int,
    generate: (string, Language) -> GeminiService.ModelResponse,
    parse: string -> Option<GeminiService.RawReply>)
    ensures var r := Settle(NewScan(id, timestamp, image, French, false),
                            BackendResult(false, store, apiKey, image, French, generate, parse));
      && r.mode == Offline
      && (!OfflineService.Installed(store, French) ==>
            r.status == Error && r.errorMessage.Some?
            && Contains(r.errorMessage.value, "French") && Contains(r.errorMessage.value, "download"))
      && (OfflineService.Installed(store, French) ==>
            r.status == Complete && r.translatedText == OfflineService.PlaceholderReply(French).translatedText)
  {
    OfflineService.MissingPackMessageIsActionable(French);
  }

  /** The session state the application component holds. `usedIds` and
      `inFlight` are bookkeeping: the ids handed out so far and those whose
      backend has not settled yet. */
  class ScanSession {
    var messages: seq<ScanRecord>
    var isOnline: bool
    var targetLanguage: Language
    ghost var usedIds: set<string>
    ghost var inFlight: set<string>

    /** Ids are distinct, and a record is scanning exactly while its
        backend call is in flight. */
    ghost predicate Valid()
      reads this
    {
      && inFlight <= usedIds
      && (forall i :: 0 <= i < |messages| ==> messages[i].id in usedIds)
      && (forall i, j :: 0 <= i < j < |messages| ==> messages[i].id != messages[j].id)
      && (forall i :: 0 <= i < |messages| ==> (messages[i].status == Scanning <==> messages[i].id in inFlight))
    }

    /** Empty history, the default language, and the platform's initial
        connectivity. */
    constructor (online: bool)
      ensures Valid()
      ensures messages == [] && isOnline == online && targetLanguage == DefaultLanguage
      ensures usedIds == {} && inFlight == {}
    {
      messages := [];
      isOnline := online;
      targetLanguage := DefaultLanguage;
      usedIds := {};
      inFlight := {};
    }

    /** The online/offline window events. */
    method SetOnline(online: bool)
      modifies this`isOnline
      ensures isOnline == online
    {
      isOnline := online;
    }

    /** The language selector. */
    method SetTargetLanguage(lang: Language)
      modifies this`targetLanguage
      ensures targetLanguage == lang
    {
      targetLanguage := lang;
    }

    /** First half of a capture: append a pending record whose mode is fixed
        from the connectivity flag now. */
    method BeginCapture(id: string, timestamp: int, image: string)
      requires Valid() && id !in usedIds
      modifies this`messages, this`usedIds, this`inFlight
      ensures Valid()
      ensures messages == old(messages) + [NewScan(id, timestamp, image, targetLanguage, isOnline)]
      ensures usedIds == old(usedIds) + {id} && inFlight == old(inFlight) + {id}
    {
      messages := messages + [NewScan(id, timestamp, image, targetLanguage, isOnline)];
      usedIds := usedIds + {id};
      inFlight := inFlight + {id};
    }

    /** Second half of a capture, one atomic step: the backend for `id` has
        settled; its record, if still listed, leaves `scanning`. */
    method FinishCapture(id: string, outcome: Result<ScanReply>)
      requires Valid() && id in inFlight
      modifies this`messages, this`inFlight
      ensures Valid()
      ensures messages == MarkSettled(old(messages), id, outcome)
      ensures inFlight == old(inFlight) - {id}
    {
      SettleOnlyTouchesId(messages, id, outcome);
      messages := MarkSettled(messages, id, outcome);
      inFlight := inFlight - {id};
    }

    /** A whole capture: append the pending record, call the backend the
        connectivity flag selects, then settle the record. */
    method HandleCapture(
      image: string,
      id: string,
      timestamp: int,
      packs: OfflineService.PackStore,
      apiKey: Option<string>,
      generate: (string, Language) -> GeminiService.ModelResponse,
      parse: string -> Option<GeminiService.RawReply>)
      requires Valid() && id !in usedIds
      modifies this`messages, this`usedIds, this`inFlight
      ensures Valid()
      ensures messages == old(messages) + [Settle(
        NewScan(id, timestamp, image, targetLanguage, isOnline),
        BackendResult(isOnline, packs.store, apiKey, image, targetLanguage, generate, parse))]
      ensures usedIds == old(usedIds) + {id} && inFlight == old(inFlight)
    {
      var online, lang := isOnline, targetLanguage;
      BeginCapture(id, timestamp, image);
      var result: Result<ScanReply>;
      if online {
        result := GeminiService.ScanAndTranslate(apiKey, image, lang, generate, parse);
      } else {
        result := packs.OfflineScanAndTranslate(image, lang);
      }
      ghost var before := old(messages);
      FinishCapture(id, result);
      SettleAppended(before, NewScan(id, timestamp, image, lang, online), result);
    }

    /** Clearing the history, after the user's confirmation. */
    method ClearHistory(confirmed: bool)
      requires Valid()
      modifies this`messages
      ensures Valid()
      ensures messages == if confirmed then [] else old(messages)
    {
      if confirmed {
        messages := [];
      }
    }
  }
}
