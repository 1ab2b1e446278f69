/** The non-visual logic of the App.tsx screen: its own translation helper,
    the document list, the newest-first results list, the follow-up guard,
    the remaining-analyses count and the reset on sign-out. */
module AppShell {
  import opened Common
  import Text
  import Decimal
  import Locale

  /** The languages of the screen's own translation tables. */
  const AppLanguages: set<string> := {"en", "es", "de", "pl", "fr", "pt", "it", "cs"}

  type Strings = map<string, string>

  /** The screen's `t(key)`: the selected language's entry if non-empty, else
      the English entry if non-empty, else the key itself. */
  function Translate(translations: map<string, Strings>, lang: string, key: string): (r: string)
    requires lang in translations && "en" in translations
    ensures key in translations[lang] && translations[lang][key] != ""
            ==> r == translations[lang][key]
    ensures !(key in translations[lang] && translations[lang][key] != "")
            && key in translations["en"] && translations["en"][key] != ""
            ==> r == translations["en"][key]
    ensures !(key in translations[lang] && translations[lang][key] != "")
            && !(key in translations["en"] && translations["en"][key] != "")
            ==> r == key
  {
    if key in translations[lang] && translations[lang][key] != "" then translations[lang][key]
    else if key in translations["en"] && translations["en"][key] != "" then translations["en"][key]
    else key
  }

  /** The two translation helpers disagree on a key missing from the selected
      language: the screen's falls back to English, the locale store's to the
      key. */
  lemma TranslationFallbacksDiffer()
    ensures var tables := map["en" := map["greeting" := "Hello"], "pl" := map[]];
      Translate(tables, "pl", "greeting") == "Hello"
      && Locale.Translate(tables, "pl", "greeting") == "greeting"
  {
  }

  datatype DocKind = Pdf | Image

  datatype Document = Document(id: string, name: string, kind: DocKind, uri: Option<string>)

  datatype AnalysisResult = AnalysisResult(id: string, question: string, answer: string)

  datatype Role = User | Assistant

  datatype Message = Message(role: Role, content: string)

  /** The record handed to the remote analysis store. */
  datatype SaveRequest = SaveRequest(documentType: string, language: string, resultText: string, imageUrl: Option<string>)

  datatype SaveOutcome = NothingToSave | Saved(request: SaveRequest) | SaveFailed(request: SaveRequest)

  /** `documents.filter(doc => doc.id !== id)`. */
  function WithoutId(docs: seq<Document>, id: string): (r: seq<Document>)
    ensures forall d :: d in r <==> d in docs && d.id != id
    ensures |r| <= |docs|
  {
    if docs == [] then []
    else (if docs[0].id != id then [docs[0]] else []) + WithoutId(docs[1..], id)
  }

  /** Filtering distributes over concatenation, so the kept documents stay in
      their original order. */
  lemma {:induction false} WithoutIdAppend(a: seq<Document>, b: seq<Document>, id: string)
    ensures WithoutId(a + b, id) == WithoutId(a, id) + WithoutId(b, id)
  {
    if a == [] {
      assert a + b == b;
    } else {
      assert (a + b)[0] == a[0] && (a + b)[1..] == a[1..] + b;
      WithoutIdAppend(a[1..], b, id);
    }
  }

  /** A list without that id is left exactly as it was. */
  lemma {:induction false} WithoutIdAbsent(docs: seq<Document>, id: string)
    requires forall i :: 0 <= i < |docs| ==> docs[i].id != id
    ensures WithoutId(docs, id) == docs
  {
    if docs != [] {
      WithoutIdAbsent(docs[1..], id);
    }
  }

  /** Removing a just-added document whose id is new restores the list. */
  lemma AddThenRemoveDocument(docs: seq<Document>, doc: Document)
    requires forall i :: 0 <= i < |docs| ==> docs[i].id != doc.id
    ensures WithoutId(docs + [doc], doc.id) == docs
  {
    WithoutIdAppend(docs, [doc], doc.id);
    WithoutIdAbsent(docs, doc.id);
    assert [doc][1..] == [];
  }

  /** The position `documents.find(doc => doc.type === 'image')` stops at:
      the first image document, or the length when there is none. */
  function FirstImageIndex(docs: seq<Document>): (i: nat)
    ensures i <= |docs|
    ensures forall j :: 0 <= j < i ==> docs[j].kind != Image
    ensures i < |docs| ==> docs[i].kind == Image
  {
    if docs == [] || docs[0].kind == Image then 0 else 1 + FirstImageIndex(docs[1..])
  }

  /** `documents.find(doc => doc.type === 'image')?.uri`. */
  function FirstImageUri(docs: seq<Document>): (r: Option<string>)
    ensures forall i :: (0 <= i < |docs| && docs[i].kind == Image
                         && (forall j :: 0 <= j < i ==> docs[j].kind != Image)) ==> r == docs[i].uri
    ensures (forall j :: 0 <= j < |docs| ==> docs[j].kind != Image) ==> r == None
  {
    var i := FirstImageIndex(docs);
    if i < |docs| then docs[i].uri else None
  }

  /** The user's message for an analysis: the document's name for a single
      document, the translated upload label otherwise. */
  function UploadMessage(translations: map<string, Strings>, lang: string, docs: seq<Document>): (r: string)
    requires lang in translations && "en" in translations
    ensures |docs| == 1 ==> r == docs[0].name
    ensures |docs| != 1 ==> r == Translate(translations, lang, "button.upload")
  {
    if |docs| == 1 then docs[0].name else Translate(translations, lang, "button.upload")
  }

  /** The question recorded for an analysis of `count` documents. */
  function AnalysisPrompt(count: nat): (r: string)
    ensures |r| > 36 && r[..24] == "Intelligent analysis of " && r[|r| - 12..] == " document(s)"
    ensures Decimal.AllDigits(r[24..|r| - 12]) && Decimal.StringToNat(r[24..|r| - 12]) == count
  {
    var digits := Decimal.NatToString(count);
    var r := "Intelligent analysis of " + digits + " document(s)";
    assert r[24..|r| - 12] == digits;
    Decimal.NatToStringRoundTrip(count);
    r
  }

  const FollowUpOpening: string := "Response to: \""
  const FollowUpClosing: string := "\" - This is a simulated AI response. In a real app, this would contain the actual AI reply to your follow-up question."

  /** The placeholder reply quotes the question verbatim after its opening. */
  function FollowUpAnswer(question: string): (r: string)
    ensures |r| > |FollowUpOpening| + |question|
    ensures r[..|FollowUpOpening|] == FollowUpOpening
    ensures r[|FollowUpOpening|..|FollowUpOpening| + |question|] == question
  {
    var r := FollowUpOpening + question + FollowUpClosing;
    assert r[..|FollowUpOpening|] == FollowUpOpening;
    assert r[|FollowUpOpening|..|FollowUpOpening| + |question|] == question;
    r
  }

  /** The displayed `Math.max(0, total - used)`. */
  function RemainingAnalyses(total: int, used: int): (r: nat)
    ensures r >= total - used
    ensures r == 0 || r == total - used
  {
    if total - used > 0 then total - used else 0
  }

  /** Each use lowers the displayed count by one until it reaches zero. */
  lemma RemainingCountsDown(total: int, used: int)
    ensures RemainingAnalyses(total, used + 1)
            == if RemainingAnalyses(total, used) > 0 then RemainingAnalyses(total, used) - 1 else 0
  {
  }

  class App {
    const translations: map<string, Strings>
    var selectedLanguage: string
    var isLoggedIn: bool
    var email: string
    var password: string
    var documents: seq<Document>
    var results: seq<AnalysisResult>
    var conversation: seq<Message>
    var followUpQuestion: string
    var userPlan: string
    var totalAnalyses: int
    var usedAnalyses: int
    var previousAnalyses: seq<AnalysisResult>
    var showPreviousAnalyses: bool

    ghost predicate Valid()
      reads this
    {
      translations.Keys == AppLanguages && selectedLanguage in AppLanguages
    }

    constructor (translations: map<string, Strings>)
      requires translations.Keys == AppLanguages
      ensures Valid() && this.translations == translations
      ensures selectedLanguage == "en" && !isLoggedIn && email == "" && password == ""
      ensures documents == [] && results == [] && conversation == [] && followUpQuestion == ""
      ensures userPlan == "" && totalAnalyses == 0 && usedAnalyses == 0
      ensures previousAnalyses == [] && !showPreviousAnalyses
    {
      this.translations := translations;
      selectedLanguage := "en";
      isLoggedIn := false;
      email, password := "", "";
      documents, results, conversation := [], [], [];
      followUpQuestion := "";
      userPlan := "";
      totalAnalyses, usedAnalyses := 0, 0;
      previousAnalyses := [];
      showPreviousAnalyses := false;
    }

    function T(key: string): (r: string)
      reads this
      requires Valid()
      ensures r == Translate(translations, selectedLanguage, key)
      ensures key in translations[selectedLanguage] && translations[selectedLanguage][key] != ""
              ==> r == translations[selectedLanguage][key]
      ensures !(key in translations[selectedLanguage] && translations[selectedLanguage][key] != "")
              && key in translations["en"] && translations["en"][key] != ""
              ==> r == translations["en"][key]
      ensures !(key in translations[selectedLanguage] && translations[selectedLanguage][key] != "")
              && !(key in translations["en"] && translations["en"][key] != "")
              ==> r == key
    {
      Translate(translations, selectedLanguage, key)
    }

    /** The language menu offers only the screen's own languages. */
    method SelectLanguage(code: string)
      requires Valid() && code in AppLanguages
      modifies this`selectedLanguage
      ensures Valid() && selectedLanguage == code
    {
      selectedLanguage := code;
    }

    /** A picked document, image or photo is appended to the list. */
    method AddDocument(doc: Document)
      modifies this`documents
      ensures documents == old(documents) + [doc]
    {
      documents := documents + [doc];
    }

    method RemoveDocument(id: string)
      modifies this`documents
      ensures documents == WithoutId(old(documents), id)
    {
      documents := WithoutId(documents, id);
    }

    method SetFollowUpQuestion(text: string)
      modifies this`followUpQuestion
      ensures followUpQuestion == text
    {
      followUpQuestion := text;
    }

    /** Analyse the current documents: rejected when there are none; otherwise
        the user's message and the engine's `answer` join the conversation,
        the new result goes first, one analysis is used, and the returned
        request is what gets saved remotely. */
    method StartAnalysis(resultId: string, answer: string)
      returns (accepted: bool, request: Option<SaveRequest>)
      requires Valid()
      modifies this`conversation, this`results, this`usedAnalyses
      ensures accepted <==> old(documents) != []
      ensures !accepted ==>
        conversation == old(conversation) && results == old(results)
        && usedAnalyses == old(usedAnalyses) && request == None
      ensures accepted ==>
        && conversation == old(conversation)
             + [Message(User, UploadMessage(translations, selectedLanguage, documents)),
                Message(Assistant, answer)]
        && results == [AnalysisResult(resultId, AnalysisPrompt(|documents|), answer)] + old(results)
        && usedAnalyses == old(usedAnalyses) + 1
        && request == Some(SaveRequest("Auto-detected", selectedLanguage, answer, FirstImageUri(documents)))
    {
      if |documents| == 0 {
        return false, None;
      }
      var content := if |documents| == 1 then documents[0].name else T("button.upload");
      conversation := conversation + [Message(User, content)];
      var newResult := AnalysisResult(resultId, AnalysisPrompt(|documents|), answer);
      results := [newResult] + results;
      usedAnalyses := usedAnalyses + 1;
      conversation := conversation + [Message(Assistant, newResult.answer)];
      var sourceImage := FirstImageUri(documents);
      accepted := true;
      request := Some(SaveRequest("Auto-detected", selectedLanguage, answer, sourceImage));
    }

    /** Ask the typed follow-up question: rejected when it is blank after
        trimming; otherwise question and reply join the conversation, the new
        result goes first, the input is cleared and one analysis is used. */
    method AskFollowUp(resultId: string) returns (accepted: bool, request: Option<SaveRequest>)
      modifies this`conversation, this`results, this`followUpQuestion, this`usedAnalyses
      ensures accepted <==> Text.Trim(old(followUpQuestion)) != ""
      ensures !accepted ==>
        conversation == old(conversation) && results == old(results)
        && followUpQuestion == old(followUpQuestion) && usedAnalyses == old(usedAnalyses)
        && request == None
      ensures accepted ==>
        var q := old(followUpQuestion);
        && conversation == old(conversation) + [Message(User, q), Message(Assistant, FollowUpAnswer(q))]
        && results == [AnalysisResult(resultId, q, FollowUpAnswer(q))] + old(results)
        && followUpQuestion == ""
        && usedAnalyses == old(usedAnalyses) + 1
        && request == Some(SaveRequest("Follow-up Question", selectedLanguage, FollowUpAnswer(q), None))
    {
      if Text.Trim(followUpQuestion) == "" {
        return false, None;
      }
      var q := followUpQuestion;
      var reply := FollowUpAnswer(q);
      conversation := conversation + [Message(User, q)];
      var newResult := AnalysisResult(resultId, q, reply);
      results := [newResult] + results;
      followUpQuestion := "";
      usedAnalyses := usedAnalyses + 1;
      conversation := conversation + [Message(Assistant, reply)];
      accepted := true;
      request := Some(SaveRequest("Follow-up Question", selectedLanguage, reply, None));
    }

    /** "Save & start new": refused with no result; otherwise the newest
        result is sent for saving, and only a successful save clears the
        results, documents and conversation. */
    method SaveAndStartNew(saveOk: bool) returns (outcome: SaveOutcome)
      modifies this`results, this`documents, this`conversation
      ensures old(results) == [] ==> outcome == NothingToSave
      ensures old(results) != [] ==>
        var request := SaveRequest("Auto-detected", selectedLanguage, old(results)[0].answer,
                                   FirstImageUri(old(documents)));
        outcome == if saveOk then Saved(request) else SaveFailed(request)
      ensures outcome.Saved? ==> results == [] && documents == [] && conversation == []
      ensures !outcome.Saved? ==>
        results == old(results) && documents == old(documents) && conversation == old(conversation)
    {
      if |results| == 0 {
        return NothingToSave;
      }
      var latest := results[0];
      var request := SaveRequest("Auto-detected", selectedLanguage, latest.answer, FirstImageUri(documents));
      if saveOk {
        results, documents, conversation := [], [], [];
        outcome := Saved(request);
      } else {
        outcome := SaveFailed(request);
      }
    }

    /** The SIGNED_IN event: logged in with the session's e-mail, and the plan
        set to the free defaults. */
    method SignedIn(sessionEmail: Option<string>)
      modifies this`isLoggedIn, this`email, this`userPlan, this`totalAnalyses, this`usedAnalyses
      ensures isLoggedIn && email == (if sessionEmail.Some? then sessionEmail.value else "")
      ensures userPlan == "Free" && totalAnalyses == 5 && usedAnalyses == 0
    {
      isLoggedIn := true;
      email := if sessionEmail.Some? then sessionEmail.value else "";
      userPlan := "Free";
      totalAnalyses := 5;
      usedAnalyses := 0;
    }

    /** The SIGNED_OUT event: every session field back to empty, 0 or false. */
    method SignedOut()
      modifies this`isLoggedIn, this`email, this`password, this`documents, this`results,
               this`conversation, this`userPlan, this`totalAnalyses, this`usedAnalyses,
               this`previousAnalyses, this`showPreviousAnalyses
      ensures !isLoggedIn && email == "" && password == ""
      ensures documents == [] && results == [] && conversation == []
      ensures userPlan == "" && totalAnalyses == 0 && usedAnalyses == 0
      ensures previousAnalyses == [] && !showPreviousAnalyses
      ensures Remaining() == 0
    {
      isLoggedIn := false;
      email := "";
      password := "";
      documents := [];
      results := [];
      conversation := [];
      userPlan := "";
      totalAnalyses := 0;
      usedAnalyses := 0;
      previousAnalyses := [];
      showPreviousAnalyses := false;
    }

    function Remaining(): (r: nat)
      reads this
      ensures r >= totalAnalyses - usedAnalyses
      ensures r == 0 || r == totalAnalyses - usedAnalyses
    {
      RemainingAnalyses(totalAnalyses, usedAnalyses)
    }
  }
}
