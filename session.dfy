/**
 * The client's session and history state: who is logged in, the draft
 * consultation (microphone, transcript, last analysis result) and the
 * newest-first list of saved consultations, which is mirrored in full into
 * browser storage under the key "history_" + user after every change.
 * Each event handler is one atomic step of the class `App`; browser storage
 * is the map field `storage`, and a stored list stands for its JSON text.
 */
module Session {
  import opened Wrappers
  import opened Json

  /** One saved analysis. `result` is whatever body the relay answered. */
  datatype Consultation = Consultation(id: string, date: string, transcript: string, result: Json)

  datatype View = NewConsultation | HistoryView

  /** `event.results[i]`: whether the segment is final, and its first alternative's text. */
  datatype Segment = Segment(isFinal: bool, text: string)

  /** How the `fetch` of the relay went: a body was read (any HTTP status), or the call threw. */
  datatype FetchOutcome = Responded(data: Json) | Threw

  type Storage = map<string, seq<Consultation>>

  const KeyPrefix := "history_"

  /** `history_${currentUser}`: a null user spells "null" inside a template literal. */
  function StorageKey(user: Option<string>): (r: string)
    ensures |r| >= |KeyPrefix| && r[..|KeyPrefix|] == KeyPrefix
    ensures user.Some? ==> r[|KeyPrefix|..] == user.value
    ensures user.None? ==> r == "history_null"
  {
    KeyPrefix + (match user case Some(u) => u case None => "null")
  }

  /** Distinct user names never share a storage key; in particular names are not trimmed. */
  lemma StorageKeyInjective(a: string, b: string)
    ensures StorageKey(Some(a)) == StorageKey(Some(b)) <==> a == b
  {
    if StorageKey(Some(a)) == StorageKey(Some(b)) {
      assert a == StorageKey(Some(a))[|KeyPrefix|..];
      assert b == StorageKey(Some(b))[|KeyPrefix|..];
    }
  }

  /** What the history effect reads for a key: the stored list, or [] when nothing is stored. */
  function Stored(storage: Storage, key: string): (r: seq<Consultation>)
    ensures key in storage ==> r == storage[key]
    ensures key !in storage ==> r == []
  {
    if key in storage then storage[key] else []
  }

  /** `if (currentUser)`: someone is logged in when the user is a non-empty string. */
  predicate LoggedIn(user: Option<string>) {
    user.Some? && user.value != ""
  }

  // ---------------------------------------------------------------- trim

  /** The characters `String.prototype.trim` removes: ECMAScript white space and line terminators. */
  predicate IsWhitespace(c: char) {
    || c == '\t' || c == '\n' || c == '\U{000B}' || c == '\U{000C}' || c == '\r'
    || c == ' ' || c == '\U{00A0}' || c == '\U{1680}' || '\U{2000}' <= c <= '\U{200A}'
    || c == '\U{2028}' || c == '\U{2029}' || c == '\U{202F}' || c == '\U{205F}'
    || c == '\U{3000}' || c == '\U{FEFF}'
  }

  predicate Blank(s: string) {
    forall i :: 0 <= i < |s| ==> IsWhitespace(s[i])
  }

  /** `trim`'s left half: the white space it drops is a prefix, and what is left starts with a non-white-space character. */
  function TrimStart(s: string): (r: string)
    ensures |r| <= |s| && r == s[|s| - |r|..]
    ensures Blank(s[..|s| - |r|])
    ensures r == "" || !IsWhitespace(r[0])
  {
    if s != "" && IsWhitespace(s[0]) then
      var r := TrimStart(s[1..]);
      assert forall i :: 1 <= i < |s| - |r| ==> s[i] == s[1..][..|s| - 1 - |r|][i - 1];
      r
    else s
  }

  /** `trim`'s right half: the white space it drops is a suffix, and what is left ends with a non-white-space character. */
  function TrimEnd(s: string): (r: string)
    ensures |r| <= |s| && r == s[..|r|]
    ensures Blank(s[|r|..])
    ensures r == "" || !IsWhitespace(r[|r| - 1])
  {
    if s != "" && IsWhitespace(s[|s| - 1]) then
      var r := TrimEnd(s[..|s| - 1]);
      assert forall i :: |r| <= i < |s| - 1 ==> s[i] == s[..|s| - 1][|r|..][i - |r|];
      r
    else s
  }

  /**
   * `String.prototype.trim`: empty exactly for a string made only of white
   * space (the empty string included); otherwise it starts and ends with a
   * non-white-space character.
   */
  function Trim(s: string): (r: string)
    ensures |r| <= |s|
    ensures r == "" <==> Blank(s)
    ensures r == "" || (!IsWhitespace(r[0]) && !IsWhitespace(r[|r| - 1]))
  {
    var t := TrimStart(s);
    TrimStartEmptyIffBlank(s);
    if t != "" then
      TrimEndKeepsFirst(t);
      var r := TrimEnd(t);
      assert r[0] == t[0];
      r
    else TrimEnd(t)
  }

  /** A non-empty string is blank exactly when its first character is white space and the rest is blank. */
  lemma BlankCons(s: string)
    requires s != ""
    ensures Blank(s) <==> IsWhitespace(s[0]) && Blank(s[1..])
  {
    if IsWhitespace(s[0]) && Blank(s[1..]) {
      forall i | 1 <= i < |s| ensures IsWhitespace(s[i]) {
        assert s[i] == s[1..][i - 1];
      }
    }
  }

  lemma {:induction false} TrimStartEmptyIffBlank(s: string)
    ensures TrimStart(s) == "" <==> Blank(s)
  {
    if s != "" {
      BlankCons(s);
      if IsWhitespace(s[0]) {
        TrimStartEmptyIffBlank(s[1..]);
      }
    }
  }

  lemma {:induction false} TrimEndKeepsFirst(t: string)
    requires t != "" && !IsWhitespace(t[0])
    ensures TrimEnd(t) != ""
  {
    if |t| > 1 && IsWhitespace(t[|t| - 1]) {
      TrimEndKeepsFirst(t[..|t| - 1]);
    }
  }

  // ---------------------------------------------------------------- delete

  /** `history.filter(item => item.id !== id)`. */
  function WithoutId(h: seq<Consultation>, id: string): (r: seq<Consultation>)
    ensures |r| <= |h|
    ensures forall c :: c in r <==> c in h && c.id != id
  {
    if h == [] then []
    else if h[0].id != id then [h[0]] + WithoutId(h[1..], id)
    else WithoutId(h[1..], id)
  }

  /** The filter works piecewise, so the records it keeps stay in their original order. */
  lemma {:induction false} WithoutIdAppend(a: seq<Consultation>, b: seq<Consultation>, id: string)
    ensures WithoutId(a + b, id) == WithoutId(a, id) + WithoutId(b, id)
  {
    if a != [] {
      assert (a + b)[0] == a[0] && (a + b)[1..] == a[1..] + b;
      WithoutIdAppend(a[1..], b, id);
    } else {
      assert a + b == b;
    }
  }

  /** Deleting an id no record carries leaves the history as it is. */
  lemma {:induction false} WithoutAbsentId(h: seq<Consultation>, id: string)
    requires forall c :: c in h ==> c.id != id
    ensures WithoutId(h, id) == h
  {
    if h != [] {
      WithoutAbsentId(h[1..], id);
    }
  }

  /** Recording a consultation with a fresh id and then deleting that id restores the history. */
  lemma RecordThenDeleteRestores(rec: Consultation, h: seq<Consultation>)
    requires forall c :: c in h ==> c.id != rec.id
    ensures WithoutId([rec] + h, rec.id) == h
  {
    WithoutAbsentId(h, rec.id);
  }

  // ---------------------------------------------------------------- speech

  /** No segment of the event is final yet. */
  predicate AllInterim(segs: seq<Segment>) {
    segs == [] || (!segs[0].isFinal && AllInterim(segs[1..]))
  }

  /** What one recognition event appends: " " + text for each final segment, in order; interim text is dropped. */
  function FinalText(segs: seq<Segment>): (r: string)
    ensures r == "" <==> AllInterim(segs)
  {
    if segs == [] then ""
    else (if segs[0].isFinal then " " + segs[0].text else "") + FinalText(segs[1..])
  }

  lemma {:induction false} FinalTextAppend(a: seq<Segment>, b: seq<Segment>)
    ensures FinalText(a + b) == FinalText(a) + FinalText(b)
  {
    if a != [] {
      assert (a + b)[0] == a[0] && (a + b)[1..] == a[1..] + b;
      FinalTextAppend(a[1..], b);
    } else {
      assert a + b == b;
    }
  }

  /** One more segment appends its own contribution and nothing else. */
  lemma FinalTextSnoc(done: seq<Segment>, next: Segment)
    ensures FinalText(done + [next]) == FinalText(done) + (if next.isFinal then " " + next.text else "")
  {
    FinalTextAppend(done, [next]);
    assert [next][1..] == [];
  }

  /** An interim segment, wherever it stands and whatever it says, adds nothing to the transcript. */
  lemma InterimIgnored(a: seq<Segment>, b: seq<Segment>, text: string)
    ensures FinalText(a + [Segment(false, text)] + b) == FinalText(a + b)
  {
    FinalTextAppend(a + [Segment(false, text)], b);
    FinalTextAppend(a, [Segment(false, text)]);
    FinalTextAppend(a, b);
  }

  /** The segments an event still has to deliver: those from `resultIndex` on. */
  function Pending(resultIndex: nat, results: seq<Segment>): seq<Segment> {
    if resultIndex <= |results| then results[resultIndex..] else []
  }

  // ---------------------------------------------------------------- the component

  class App {
    var doctorName: string           // the login form's input
    var currentUser: Option<string>
    var view: View
    var history: seq<Consultation>
    var isRecording: bool
    var transcript: string
    var result: Json
    var loading: bool
    var storage: Storage             // the browser's localStorage
    const hasRecognizer: bool        // the browser offers a SpeechRecognition, so the mount effect set one up

    /** While someone is logged in, the list in memory is the one stored under their key. */
    ghost predicate Synced()
      reads this
    {
      LoggedIn(currentUser) ==> history == Stored(storage, StorageKey(currentUser))
    }

    /** The first render: logged out, empty draft, over whatever the browser already stores. */
    constructor (stored: Storage, speechSupported: bool)
      ensures doctorName == "" && currentUser == None && view == NewConsultation && history == []
      ensures !isRecording && transcript == "" && result == JNull && !loading
      ensures storage == stored && hasRecognizer == speechSupported
      ensures Synced()
    {
      doctorName := "";
      currentUser := None;
      view := NewConsultation;
      history := [];
      isRecording := false;
      transcript := "";
      result := JNull;
      loading := false;
      storage := stored;
      hasRecognizer := speechSupported;
    }

    /** The login form's input changed. */
    method EditDoctorName(name: string)
      modifies this`doctorName
      ensures doctorName == name
    {
      doctorName := name;
    }

    /**
     * The effect that runs whenever `currentUser` changes: a logged-in user's
     * stored list replaces the in-memory one, [] when nothing is stored; with
     * nobody logged in (no user, or the empty name) nothing happens.
     */
    method LoadHistory()
      modifies this`history
      ensures LoggedIn(currentUser) ==> history == Stored(storage, StorageKey(currentUser))
      ensures !LoggedIn(currentUser) ==> history == old(history)
      ensures Synced()
    {
      if LoggedIn(currentUser) {
        var key := StorageKey(currentUser);
        if key in storage {
          history := storage[key];
        } else {
          history := [];
        }
      }
    }

    /**
     * `handleLogin`, followed by the history effect when it changed the user:
     * a blank name is refused; otherwise the name, untrimmed, becomes the user.
     */
    method Login()
      modifies this`currentUser, this`history
      ensures Blank(doctorName) ==> currentUser == old(currentUser) && history == old(history)
      ensures !Blank(doctorName) ==> currentUser == Some(doctorName)
      ensures !Blank(doctorName) && old(currentUser) != Some(doctorName) ==>
        history == Stored(storage, StorageKey(Some(doctorName)))
      ensures old(currentUser) == Some(doctorName) ==> history == old(history)
      ensures old(Synced()) ==> Synced()
      ensures !Blank(doctorName) && old(currentUser) != Some(doctorName) ==> Synced()
    {
      if Trim(doctorName) == "" {
        return;
      }
      var previous := currentUser;
      currentUser := Some(doctorName);
      if currentUser != previous {
        LoadHistory();
      }
    }

    /**
     * `handleLogout`: forgets the user, the typed name and the draft; storage
     * and the in-memory list are left alone.
     */
    method Logout()
      modifies this`currentUser, this`doctorName, this`result, this`transcript
      ensures currentUser == None && doctorName == "" && result == JNull && transcript == ""
      ensures Synced()
    {
      currentUser := None;
      doctorName := "";
      result := JNull;
      transcript := "";
    }

    /**
     * `toggleMic`.  Without a recognizer nothing changes (an alert is shown).
     * Recording stops; otherwise the draft is cleared and recording starts,
     * `startSucceeds` telling whether `recognition.start()` returned normally.
     */
    method ToggleMic(startSucceeds: bool)
      modifies this`isRecording, this`transcript, this`result
      ensures !hasRecognizer ==>
        isRecording == old(isRecording) && transcript == old(transcript) && result == old(result)
      ensures hasRecognizer && old(isRecording) ==>
        !isRecording && transcript == old(transcript) && result == old(result)
      ensures hasRecognizer && !old(isRecording) ==>
        isRecording == startSucceeds && transcript == "" && result == JNull
    {
      if !hasRecognizer {
        return;
      }
      if isRecording {
        isRecording := false;
      } else {
        transcript := "";
        result := JNull;
        if startSucceeds {
          isRecording := true;
        }
      }
    }

    /**
     * `recognition.onresult`: for each segment from `resultIndex` to the end,
     * in order, a final one appends " " + its text to the transcript; interim
     * ones are collected into a local string that is then dropped.
     */
    method OnResult(resultIndex: nat, results: seq<Segment>)
      modifies this`transcript
      ensures transcript == old(transcript) + FinalText(Pending(resultIndex, results))
    {
      var interim := "";
      ghost var pending := Pending(resultIndex, results);
      var i := resultIndex;
      while i < |results|
        invariant resultIndex <= i
        invariant resultIndex <= |results| ==> i <= |results|
        invariant resultIndex > |results| ==> i == resultIndex
        invariant transcript == old(transcript) + FinalText(pending[..i - resultIndex])
      {
        ghost var done := pending[..i - resultIndex];
        assert pending[i - resultIndex] == results[i];
        FinalTextSnoc(done, results[i]);
        assert pending[..i + 1 - resultIndex] == done + [results[i]];
        if results[i].isFinal {
          transcript := transcript + (" " + results[i].text);
        } else {
          interim := interim + results[i].text;
        }
        i := i + 1;
      }
      assert pending[..i - resultIndex] == pending;
    }

    /** `recognition.onend`: the recognizer stopped. */
    method OnEnd()
      modifies this`isRecording
      ensures !isRecording
    {
      isRecording := false;
    }

    /** The transcript text area was edited by hand. */
    method EditTranscript(text: string)
      modifies this`transcript
      ensures transcript == text
    {
      transcript := text;
    }

    /**
     * `analyze`.  An empty transcript does nothing.  Otherwise the relay is
     * called; whatever body it answers (an error status included) becomes the
     * result and a new consultation `id`/`date` at the head of the history,
     * and the whole list is written under the user's key.  When the call
     * throws, only `loading` is touched, and it ends false.
     */
    method Analyze(outcome: FetchOutcome, id: string, date: string)
      modifies this`loading, this`result, this`history, this`storage
      ensures old(transcript) == "" ==>
        loading == old(loading) && result == old(result) && history == old(history) && storage == old(storage)
      ensures transcript != "" && outcome.Threw? ==>
        !loading && result == old(result) && history == old(history) && storage == old(storage)
      ensures transcript != "" && outcome.Responded? ==>
        && !loading
        && result == outcome.data
        && history == [Consultation(id, date, transcript, outcome.data)] + old(history)
        && storage == old(storage)[StorageKey(currentUser) := history]
      ensures old(Synced()) ==> Synced()
    {
      if transcript == "" {
        return;
      }
      loading := true;
      match outcome {
        case Threw =>
        case Responded(data) =>
          result := data;
          var newConsultation := Consultation(id, date, transcript, data);
          var updatedHistory := [newConsultation] + history;
          history := updatedHistory;
          storage := storage[StorageKey(currentUser) := updatedHistory];
      }
      loading := false;
    }

    /** `deleteItem`: drops every record with that id, keeps the rest in order, and rewrites the user's key. */
    method DeleteItem(id: string)
      modifies this`history, this`storage
      ensures history == WithoutId(old(history), id)
      ensures storage == old(storage)[StorageKey(currentUser) := history]
      ensures Synced()
    {
      var newHistory := WithoutId(history, id);
      history := newHistory;
      storage := storage[StorageKey(currentUser) := newHistory];
    }

    /** The "Nova Consulta" button: back to the capture view with an empty draft. */
    method StartNewConsultation()
      modifies this`view, this`result, this`transcript
      ensures view == NewConsultation && result == JNull && transcript == ""
    {
      view := NewConsultation;
      result := JNull;
      transcript := "";
    }

    /** The "Histórico" button. */
    method ShowHistory()
      modifies this`view
      ensures view == HistoryView
    {
      view := HistoryView;
    }
  }

  /**
   * Logging in as A, out, in as B, out and in as A again shows A the list it
   * had: storage is the only carrier of history between sessions.
   */
  method SwitchingUsersKeepsHistory(app: App, a: string, b: string)
    requires app.currentUser == None && !Blank(a) && !Blank(b)
    modifies app
    ensures app.currentUser == Some(a)
    ensures app.history == Stored(old(app.storage), StorageKey(Some(a)))
    ensures app.storage == old(app.storage)
  {
    app.EditDoctorName(a);
    app.Login();
    app.Logout();
    app.EditDoctorName(b);
    app.Login();
    app.Logout();
    app.EditDoctorName(a);
    app.Login();
  }

  /**
   * Analyzing a draft and then deleting the new record by its id gives back
   * the history and the stored list the user had before.
   */
  method AnalyzeThenDeleteRestores(app: App, data: Json, id: string, date: string)
    requires app.Synced() && LoggedIn(app.currentUser) && app.transcript != ""
    requires forall c :: c in app.history ==> c.id != id
    modifies app
    ensures app.history == old(app.history)
    ensures Stored(app.storage, StorageKey(app.currentUser)) == Stored(old(app.storage), StorageKey(app.currentUser))
    ensures forall k :: k != StorageKey(app.currentUser) ==> Stored(app.storage, k) == Stored(old(app.storage), k)
  {
    app.Analyze(Responded(data), id, date);
    app.DeleteItem(id);
    RecordThenDeleteRestores(Consultation(id, date, app.transcript, data), old(app.history));
  }
}
