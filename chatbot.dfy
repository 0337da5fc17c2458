/**
 * The chatbot endpoint of the backend: keyword intent detection, the
 * helpers that read fields off database rows, and the multi-turn
 * conversation that tracks a complaint or files one. The conversation
 * keeps its state in a context dictionary that the client sends back on
 * every turn; each turn reads it, updates it step by step and returns it.
 *
 * The database is an input (Db): the active districts, the active
 * municipalities and wards under a given id, complaint lookup, a
 * citizen's complaints and the id the next insert receives. The two
 * classifier calls are one input (None when either raises) and the two
 * label maps are parameters.
 */
module Chatbot {
  import opened Wrappers
  import Text
  import LabelConverter
  import PrepFrame

  // ---------------------------------------------------------------------
  // Intent detection
  // ---------------------------------------------------------------------

  datatype Intent = Greeting | FileComplaint | CheckStatus | ListComplaints | Help | Unknown

  function IntentName(i: Intent): string
  {
    match i
    case Greeting => "greeting"
    case FileComplaint => "file_complaint"
    case CheckStatus => "check_status"
    case ListComplaints => "list_complaints"
    case Help => "help"
    case Unknown => "unknown"
  }

  const GREETING_WORDS: seq<string> := ["hello", "hi", "hey", "namaste", "greetings"]
  const FILE_WORDS: seq<string> := ["file", "register", "submit", "complaint", "grievance", "problem", "issue", "report"]
  const STATUS_WORDS: seq<string> := ["status", "track", "check", "progress", "update", "where is", "my complaint"]
  const LIST_WORDS: seq<string> := ["my complaints", "my grievances", "list", "show all", "view all"]
  const HELP_WORDS: seq<string> := ["help", "support", "assist", "how", "what can you do", "guide"]

  /** `any(word in text for word in words)`: some keyword is a substring of the text. */
  predicate AnyIn(words: seq<string>, text: string)
  {
    exists i :: 0 <= i < |words| && Text.Contains(text, words[i])
  }

  /** detect_intent: the first keyword group with a substring hit in the lower-cased message. */
  function DetectIntent(message: string): Intent
  {
    var m := Text.Lower(message);
    if AnyIn(GREETING_WORDS, m) then Greeting
    else if AnyIn(FILE_WORDS, m) then FileComplaint
    else if AnyIn(STATUS_WORDS, m) then CheckStatus
    else if AnyIn(LIST_WORDS, m) then ListComplaints
    else if AnyIn(HELP_WORDS, m) then Help
    else Unknown
  }

  /** A substring of a substring is a substring. */
  lemma ContainsInner(s: string, t: string, k: nat, n: nat)
    requires Text.Contains(s, t)
    requires k + n <= |t|
    ensures Text.Contains(s, t[k..k + n])
  {
    var i := ContainsWitness(s, t);
    assert forall j :: 0 <= j < |t| ==> s[i + j] == s[i..i + |t|][j] == t[j];
    assert s[i + k..i + k + n] == t[k..k + n];
    Text.ContainsAt(s, t[k..k + n], i + k);
  }

  /** Where the substring occurs. */
  lemma {:induction false} ContainsWitness(s: string, sub: string) returns (i: nat)
    requires Text.Contains(s, sub)
    ensures i + |sub| <= |s| && s[i..i + |sub|] == sub
    decreases |s|
  {
    if sub <= s {
      i := 0;
    } else {
      var j := ContainsWitness(s[1..], sub);
      assert s[1..][j..j + |sub|] == s[j + 1..j + 1 + |sub|];
      i := j + 1;
    }
  }

  /**
   * "complaint" is a file_complaint keyword and is tried before the
   * list_complaints group, so a message containing "my complaints" is
   * never routed to the complaint list: it is filing, or a greeting when a
   * greeting word also occurs.
   */
  lemma MyComplaintsIsFiling(message: string)
    requires Text.Contains(Text.Lower(message), "my complaints")
    ensures DetectIntent(message) != ListComplaints
    ensures !AnyIn(GREETING_WORDS, Text.Lower(message)) ==> DetectIntent(message) == FileComplaint
  {
    var m := Text.Lower(message);
    ContainsInner(m, "my complaints", 3, 9);
    assert FILE_WORDS[3] == "complaint";
    assert "my complaints"[3..12] == "complaint";
    assert AnyIn(FILE_WORDS, m);
  }

  /** Matching is by substring, not by word: any message with "hi" in it (say "this road") is a greeting. */
  lemma HiInsideAWordGreets(message: string)
    requires Text.Contains(Text.Lower(message), "hi")
    ensures DetectIntent(message) == Greeting
  {
    assert GREETING_WORDS[1] == "hi";
  }

  /** A keyword longer than the text cannot occur in it. */
  lemma {:induction false} TooLongToContain(s: string, sub: string)
    requires |sub| > |s|
    ensures !Text.Contains(s, sub)
    decreases |s|
  {
    if |s| > 0 {
      TooLongToContain(s[1..], sub);
    }
  }

  /** Every keyword starts with a lower-case letter. */
  lemma KeywordsStartWithLetters(words: seq<string>, i: nat)
    requires words == GREETING_WORDS || words == FILE_WORDS || words == STATUS_WORDS
      || words == LIST_WORDS || words == HELP_WORDS
    requires i < |words|
    ensures |words[i]| > 0 && Text.IsLowerAscii(words[i][0])
  {
  }

  /** Text without lower-case letters contains no word that starts with one. */
  lemma {:induction false} NoLetterNoMatch(s: string, w: string)
    requires forall j :: 0 <= j < |s| ==> !Text.IsLowerAscii(s[j])
    requires |w| > 0 && Text.IsLowerAscii(w[0])
    ensures !Text.Contains(s, w)
    decreases |s|
  {
    assert |s| == 0 || s[0] != w[0];
    if |s| > 0 {
      NoLetterNoMatch(s[1..], w);
    }
  }

  /** A bare number matches no keyword, so detect_intent calls it "unknown". */
  lemma NumberIsUnknown(message: string)
    requires Text.IsDigits(message)
    ensures DetectIntent(message) == Unknown
  {
    var m := Text.Lower(message);
    assert forall j :: 0 <= j < |m| ==> m[j] == message[j] && !Text.IsLowerAscii(m[j]);
    forall words, i | (words == GREETING_WORDS || words == FILE_WORDS || words == STATUS_WORDS
      || words == LIST_WORDS || words == HELP_WORDS) && 0 <= i < |words|
      ensures !Text.Contains(m, words[i])
    {
      KeywordsStartWithLetters(words, i);
      NoLetterNoMatch(m, words[i]);
    }
  }

  /** The message "help" is detected as the help intent. */
  lemma HelpIsDetected()
    ensures DetectIntent("help") == Help
    ensures Text.PyStrip("help") == "help"
  {
    var m := Text.Lower("help");
    Text.LowerKeepsLower("help");
    assert m == "help";
    HelpNotGreeting();
    HelpNotFiling();
    HelpNotStatus();
    HelpNotList();
    assert Text.Contains(m, HELP_WORDS[0]);
    Text.StripKeeps("help");
  }

  /** A word with a character the text lacks does not occur in it. */
  lemma MissingCharNotContained(s: string, w: string, k: nat)
    requires k < |w| && forall j :: 0 <= j < |s| ==> s[j] != w[k]
    ensures !Text.Contains(s, w)
  {
    if Text.Contains(s, w) {
      ContainedCharOccurs(s, w, k);
    }
  }

  /** Every character of a contained word occurs in the text. */
  lemma ContainedCharOccurs(s: string, w: string, k: nat)
    requires k < |w| && Text.Contains(s, w)
    ensures exists j :: 0 <= j < |s| && s[j] == w[k]
  {
    var i := ContainsWitness(s, w);
    assert s[i..i + |w|][k] == w[k];
    assert s[i + k] == w[k];
  }

  lemma HelpNotGreeting()
    ensures !AnyIn(GREETING_WORDS, "help")
  {
    forall i | 0 <= i < |GREETING_WORDS|
      ensures !Text.Contains("help", GREETING_WORDS[i])
    {
      if i == 1 {
        MissingCharNotContained("help", "hi", 1);
      } else if i == 2 {
        MissingCharNotContained("help", "hey", 2);
      } else {
        TooLongToContain("help", GREETING_WORDS[i]);
      }
    }
  }

  lemma HelpNotFiling()
    ensures !AnyIn(FILE_WORDS, "help")
  {
    forall i | 0 <= i < |FILE_WORDS|
      ensures !Text.Contains("help", FILE_WORDS[i])
    {
      if i == 0 {
        MissingCharNotContained("help", "file", 0);
      } else {
        TooLongToContain("help", FILE_WORDS[i]);
      }
    }
  }

  lemma HelpNotStatus()
    ensures !AnyIn(STATUS_WORDS, "help")
  {
    forall i | 0 <= i < |STATUS_WORDS|
      ensures !Text.Contains("help", STATUS_WORDS[i])
    {
      TooLongToContain("help", STATUS_WORDS[i]);
    }
  }

  lemma HelpNotList()
    ensures !AnyIn(LIST_WORDS, "help")
  {
    forall i | 0 <= i < |LIST_WORDS|
      ensures !Text.Contains("help", LIST_WORDS[i])
    {
      if i == 2 {
        MissingCharNotContained("help", "list", 1);
      } else {
        TooLongToContain("help", LIST_WORDS[i]);
      }
    }
  }

  // ---------------------------------------------------------------------
  // Reading fields off rows: extract_int and extract_str
  // ---------------------------------------------------------------------

  /** The Python values a row field or dict entry can hold; `repr` is what str() prints for a float. */
  datatype Field = FNone | FBool(b: bool) | FInt(i: int) | FFloat(x: real, repr: string) | FStr(s: string) | FDateTime(text: string)

  /** A missing object, a dict, or an ORM row read with getattr. */
  datatype Obj = ObjNone | ObjDict(entries: map<string, Field>) | ObjRow(attrs: map<string, Field>)

  /** obj.get(field, default) or getattr(obj, field, default). */
  function Lookup(obj: Obj, field: string, default: Field): Field
    requires !obj.ObjNone?
  {
    match obj
    case ObjDict(e) => if field in e then e[field] else default
    case ObjRow(a) => if field in a then a[field] else default
  }

  /** Python's int() on a field value; None when it raises TypeError or ValueError. */
  function IntOf(v: Field): Option<int>
  {
    match v
    case FNone => None
    case FBool(b) => Some(if b then 1 else 0)
    case FInt(i) => Some(i)
    case FFloat(x, _) => Some(PrepFrame.TruncToInt(x))
    case FStr(s) => Text.PyInt(s)
    case FDateTime(_) => None
  }

  predicate FieldTruthy(v: Field)
  {
    match v
    case FNone => false
    case FBool(b) => b
    case FInt(i) => i != 0
    case FFloat(x, _) => x != 0.0
    case FStr(s) => s != ""
    case FDateTime(_) => true
  }

  /** Python's str() of a field value. */
  function StrOf(v: Field): string
  {
    match v
    case FNone => "None"
    case FBool(b) => if b then "True" else "False"
    case FInt(i) => Text.IntText(i)
    case FFloat(_, repr) => repr
    case FStr(s) => s
    case FDateTime(text) => text
  }

  /** extract_int: 0 for a missing object, a missing field or a value int() refuses. */
  function ExtractInt(obj: Obj, field: string): int
  {
    if obj.ObjNone? then 0
    else
      var v := IntOf(Lookup(obj, field, FInt(0)));
      if v.Some? then v.value else 0
  }

  /** extract_str: "" for a missing object or a falsy value, otherwise str() of the value. */
  function ExtractStr(obj: Obj, field: string): string
  {
    if obj.ObjNone? then ""
    else
      var v := Lookup(obj, field, FStr(""));
      if FieldTruthy(v) then StrOf(v) else ""
  }

  predicate HasField(obj: Obj, field: string)
  {
    match obj
    case ObjNone => false
    case ObjDict(e) => field in e
    case ObjRow(a) => field in a
  }

  /** The fallbacks of extract_int, and the values it converts. */
  lemma ExtractIntRules(obj: Obj, field: string)
    ensures obj.ObjNone? ==> ExtractInt(obj, field) == 0
    ensures !HasField(obj, field) ==> ExtractInt(obj, field) == 0
    ensures HasField(obj, field) ==>
      var v := Lookup(obj, field, FNone);
      && (IntOf(v).None? ==> ExtractInt(obj, field) == 0)
      && (v.FInt? ==> ExtractInt(obj, field) == v.i)
      && (v.FStr? && Text.PyInt(v.s).Some? ==> ExtractInt(obj, field) == Text.PyInt(v.s).value)
  {
  }

  /** The fallbacks of extract_str, and the values it keeps. */
  lemma ExtractStrRules(obj: Obj, field: string)
    ensures obj.ObjNone? || !HasField(obj, field) ==> ExtractStr(obj, field) == ""
    ensures HasField(obj, field) ==>
      var v := Lookup(obj, field, FNone);
      && (!FieldTruthy(v) ==> ExtractStr(obj, field) == "")
      && (v.FStr? ==> ExtractStr(obj, field) == v.s)
  {
  }

  /** int() reads back what str() prints for an int. */
  lemma IntTextRoundTrip(i: int)
    ensures Text.PyInt(Text.IntText(i)) == Some(i)
  {
    var t := Text.IntText(i);
    var d := Text.NatDigits(if i < 0 then -i else i);
    assert Text.IsDigitAscii(d[0]) && Text.IsDigitAscii(d[|d| - 1]);
    Text.StripKeeps(t);
    if i < 0 {
      assert t[1..] == d;
    }
  }

  /**
   * An int field read with extract_str and then written to a dict reads
   * back through extract_int unchanged, 0 included: str() of 0 is falsy
   * and gives "", which int() refuses, and the fallback is 0 again.
   */
  lemma ExtractRoundTrip(obj: Obj, field: string)
    requires HasField(obj, field) && Lookup(obj, field, FNone).FInt?
    ensures ExtractInt(ObjDict(map[field := FStr(ExtractStr(obj, field))]), field) == Lookup(obj, field, FNone).i
  {
    var i := Lookup(obj, field, FNone).i;
    ExtractStrOfInt(obj, field);
    ExtractIntOfText(field, ExtractStr(obj, field));
    if i != 0 {
      IntTextRoundTrip(i);
    } else {
      assert Text.PyStrip("") == "";
      assert Text.PyInt("") == None;
    }
  }

  /** extract_str of an int field: str() of it, or "" for a falsy 0. */
  lemma ExtractStrOfInt(obj: Obj, field: string)
    requires HasField(obj, field) && Lookup(obj, field, FNone).FInt?
    ensures var i := Lookup(obj, field, FNone).i;
      ExtractStr(obj, field) == if i != 0 then Text.IntText(i) else ""
  {
    assert Lookup(obj, field, FStr("")) == Lookup(obj, field, FNone);
  }

  /** extract_int of a dict holding one string: int() of it, or 0 when int() refuses. */
  lemma ExtractIntOfText(field: string, text: string)
    ensures var v := Text.PyInt(text);
      ExtractInt(ObjDict(map[field := FStr(text)]), field) == if v.Some? then v.value else 0
  {
    assert Lookup(ObjDict(map[field := FStr(text)]), field, FInt(0)) == FStr(text);
  }

  // ---------------------------------------------------------------------
  // The conversation state
  // ---------------------------------------------------------------------

  /** A JSON value from the client; a list or object only by its size. */
  datatype Json = JNull | JBool(b: bool) | JInt(i: int) | JStr(s: string) | JCollection(size: nat)

  predicate Truthy(v: Json)
  {
    match v
    case JNull => false
    case JBool(b) => b
    case JInt(i) => i != 0
    case JStr(s) => s != ""
    case JCollection(n) => n > 0
  }

  /** The context keys the endpoint reads and writes; any other key the client sends is kept as it is. */
  datatype Key = IntentKey | DistrictId | DistrictName | MunicipalityId | MunicipalityName
    | WardId | WardNumber | ProblemDescription | ComplaintId | OtherKey(name: string)

  type Context = map<Key, Json>

  /** context.get(key): None when absent. */
  function Get(c: Context, k: Key): Json
  {
    if k in c then c[k] else JNull
  }

  /** Some filing or tracking step is under way. */
  predicate InActiveFlow(c: Context)
  {
    Truthy(Get(c, DistrictId)) || Truthy(Get(c, MunicipalityId)) || Truthy(Get(c, WardId))
    || Truthy(Get(c, ProblemDescription)) || Truthy(Get(c, ComplaintId))
  }

  /** The intent is detected afresh when none is set, or on a non-empty, non-numeric message outside any flow. */
  predicate Redetects(c: Context, msg: string)
  {
    !Truthy(Get(c, IntentKey)) || (!Text.IsDigits(msg) && msg != "" && !InActiveFlow(c))
  }

  /** The intent string as an Intent, when it is one of the six names. */
  function AsIntent(j: Json): (r: Option<Intent>)
    ensures r.Some? ==> j == JStr(IntentName(r.value))
  {
    if !j.JStr? then None
    else if j.s == "greeting" then Some(Greeting)
    else if j.s == "file_complaint" then Some(FileComplaint)
    else if j.s == "check_status" then Some(CheckStatus)
    else if j.s == "list_complaints" then Some(ListComplaints)
    else if j.s == "help" then Some(Help)
    else if j.s == "unknown" then Some(Unknown)
    else None
  }

  lemma AsIntentOfName(i: Intent)
    ensures AsIntent(JStr(IntentName(i))) == Some(i)
  {
  }

  /** A location row: its id and its name (a ward is named by its number). */
  datatype Place = Place(id: int, name: string)

  datatype Db = Db(
    districts: seq<Place>,              // the active districts, in query order
    municipalities: Json -> seq<Place>, // the active municipalities of a district id
    wards: Json -> seq<Place>,          // the active wards of a municipality id
    complaint: Json -> Option<int>,     // the id of the complaint a given id finds, if any
    complaintsOf: int -> seq<int>,      // a citizen's complaint ids, newest first
    nextId: int)                        // the id the next inserted complaint receives

  datatype NewComplaint = NewComplaint(
    id: int, citizen: Option<int>, department: Option<string>, urgency: Option<string>, message: Json, ward: Json)

  datatype Reply =
    | Welcome
    | LoginToList | NoComplaints | ComplaintList(ids: seq<int>)
    | AskComplaintId | ComplaintNotFound | StatusOf(complaint: int)
    | LoginToFile | AskDistrict | InvalidDistrict | DistrictChosen(district: Place)
    | MunicipalityChosen(municipality: Place) | InvalidMunicipality
    | WardChosen(ward: Place) | InvalidWard | AskWard
    | DescriptionTooShort
    | Filed(filed: NewComplaint)
    | HelpText | LlmAnswer(text: string) | Fallback
    | ServerError(inserted: Option<NewComplaint>) // an exception escaped: HTTP 500

  /** The reply, the intent it reports and the context it hands back. */
  datatype Response = Response(reply: Reply, intent: string, context: Context)

  /** `not chat.user_id` is false. */
  predicate SignedIn(userId: Option<int>)
  {
    userId.Some? && userId.value != 0
  }

  /** The message is a number naming an entry of a list of n, counting from 1. */
  predicate PicksIndex(msg: string, n: nat)
  {
    Text.IsDigits(msg) && 1 <= Text.DigitsValue(msg) <= n
  }

  function Picked(msg: string, places: seq<Place>): Place
    requires PicksIndex(msg, |places|)
  {
    places[Text.DigitsValue(msg) - 1]
  }

  // ---------------------------------------------------------------------
  // Helpers with loops
  // ---------------------------------------------------------------------

  /** The length of the run of non-whitespace that starts the text. */
  function WordEnd(s: string): (n: nat)
    requires s != [] && !Text.IsPySpace(s[0])
    ensures 1 <= n <= |s|
    ensures forall j :: 0 <= j < n ==> !Text.IsPySpace(s[j])
    ensures n < |s| ==> Text.IsPySpace(s[n])
  {
    if |s| == 1 || Text.IsPySpace(s[1]) then 1 else 1 + WordEnd(s[1..])
  }

  /** Python's str.split() with no argument: the maximal runs of non-whitespace, in order. */
  function Split(s: string): (words: seq<string>)
    ensures forall i :: 0 <= i < |words| ==> |words[i]| > 0
    decreases |s|
  {
    if s == [] then []
    else if Text.IsPySpace(s[0]) then Split(s[1..])
    else
      var n := WordEnd(s);
      [s[..n]] + Split(s[n..])
  }

  /** A message that is one number splits into just that number. */
  lemma SplitNumber(s: string)
    requires Text.IsDigits(s)
    ensures Split(s) == [s]
  {
    assert forall j :: 0 <= j < |s| ==> !Text.IsPySpace(s[j]);
    var n := WordEnd(s);
    assert s[..n] == s && s[n..] == [];
  }

  /** Word i is the first all-digit word. */
  predicate FirstNumberAt(words: seq<string>, i: int)
  {
    0 <= i < |words| && Text.IsDigits(words[i]) && forall j :: 0 <= j < i ==> !Text.IsDigits(words[j])
  }

  /** The loop of the status flow: int() of the first all-digit word, if any. */
  method FirstNumber(words: seq<string>) returns (n: Option<nat>)
    ensures n.None? <==> forall i :: 0 <= i < |words| ==> !Text.IsDigits(words[i])
    ensures n.Some? ==> exists i :: FirstNumberAt(words, i) && n.value == Text.DigitsValue(words[i])
  {
    var k := 0;
    while k < |words|
      invariant 0 <= k <= |words|
      invariant forall j :: 0 <= j < k ==> !Text.IsDigits(words[j])
    {
      if Text.IsDigits(words[k]) {
        n := Some(Text.DigitsValue(words[k]));
        assert FirstNumberAt(words, k);
        return;
      }
      k := k + 1;
    }
    n := None;
  }

  /** `msg.lower() in str(name).lower()`. */
  predicate NameMatches(msg: string, p: Place)
  {
    Text.Contains(Text.Lower(p.name), Text.Lower(msg))
  }

  predicate FirstNameMatchAt(msg: string, places: seq<Place>, i: int)
  {
    0 <= i < |places| && NameMatches(msg, places[i]) && forall j :: 0 <= j < i ==> !NameMatches(msg, places[j])
  }

  /**
   * The municipality step's choice: a number picks by 1-based index; any
   * other text picks the first municipality whose name contains it,
   * ignoring case.
   */
  ghost predicate SelectsMunicipality(msg: string, municipalities: seq<Place>, selected: Option<Place>)
  {
    && (Text.IsDigits(msg) ==>
          selected == if PicksIndex(msg, |municipalities|) then Some(Picked(msg, municipalities)) else None)
    && (!Text.IsDigits(msg) ==>
          (selected.None? <==> forall i :: 0 <= i < |municipalities| ==> !NameMatches(msg, municipalities[i])))
    && (!Text.IsDigits(msg) && selected.Some? ==>
          exists i :: FirstNameMatchAt(msg, municipalities, i) && selected.value == municipalities[i])
  }

  /** The loop of the municipality step. The empty text is in every name, so it picks the first municipality. */
  method SelectMunicipality(msg: string, municipalities: seq<Place>) returns (selected: Option<Place>)
    ensures SelectsMunicipality(msg, municipalities, selected)
    ensures msg == "" && |municipalities| > 0 ==> selected == Some(municipalities[0])
  {
    if Text.IsDigits(msg) {
      selected := if PicksIndex(msg, |municipalities|) then Some(Picked(msg, municipalities)) else None;
      return;
    }
    var needle := Text.Lower(msg);
    var k := 0;
    while k < |municipalities|
      invariant 0 <= k <= |municipalities|
      invariant forall j :: 0 <= j < k ==> !NameMatches(msg, municipalities[j])
    {
      if Text.Contains(Text.Lower(municipalities[k].name), needle) {
        assert FirstNameMatchAt(msg, municipalities, k);
        selected := Some(municipalities[k]);
        return;
      }
      k := k + 1;
    }
    selected := None;
  }

  // ---------------------------------------------------------------------
  // One turn of the conversation
  // ---------------------------------------------------------------------

  /** The intent this turn works with and the context once it is recorded. */
  function Detection(c: Context, msg: string): (Json, Context)
  {
    if Redetects(c, msg) then
      var intent := JStr(IntentName(DetectIntent(msg)));
      (intent, c[IntentKey := intent])
    else (c[IntentKey], c)
  }

  /** The labels the new complaint receives. */
  datatype Labels = Labels(urgency: Option<string>, department: Option<string>)

  /**
   * Both predictions resolved through the label maps; if the classifier or
   * a resolution raises, the labels of code 0; None when that fallback
   * raises as well.
   */
  function Classify(predicted: Option<(LabelConverter.PyValue, LabelConverter.PyValue)>,
                    urgencyMap: map<int, string>, departmentMap: map<int, string>): (r: Option<Labels>)
    ensures predicted.None? ==> (r.Some? <==> 0 in urgencyMap && 0 in departmentMap)
    ensures predicted.None? && r.Some? ==> r.value == Labels(Some(urgencyMap[0]), Some(departmentMap[0]))
    ensures r.Some? && r.value.urgency.Some? ==> r.value.urgency.value in urgencyMap.Values
    ensures r.Some? && r.value.department.Some? ==> r.value.department.value in departmentMap.Values
  {
    var u := if predicted.Some? then LabelConverter.ResolveLabel(predicted.value.0, urgencyMap) else Err(LabelConverter.UnexpectedType);
    var d := if predicted.Some? then LabelConverter.ResolveLabel(predicted.value.1, departmentMap) else Err(LabelConverter.UnexpectedType);
    if u.Ok? && d.Ok? then Some(Labels(u.value, d.value))
    else
      var u0 := LabelConverter.ResolveLabel(LabelConverter.PyInt(0), urgencyMap);
      var d0 := LabelConverter.ResolveLabel(LabelConverter.PyInt(0), departmentMap);
      if u0.Ok? && d0.Ok? then Some(Labels(u0.value, d0.value)) else None
  }

  /** Lines 115-124: strip the message, then detect the intent or keep the context's. */
  method DetectTurn(message: string, context0: Context) returns (msg: string, intent: Json, context: Context)
    ensures msg == Text.PyStrip(message)
    ensures Redetects(context0, msg) ==>
      intent == JStr(IntentName(DetectIntent(msg))) && context == context0[IntentKey := intent]
    ensures !Redetects(context0, msg) ==> intent == context0[IntentKey] && context == context0
    ensures (intent, context) == Detection(context0, msg)
  {
    context := context0;
    msg := Text.PyStrip(message);
    if !Truthy(Get(context, IntentKey)) || (!Text.IsDigits(msg) && msg != "" && !InActiveFlow(context)) {
      intent := JStr(IntentName(DetectIntent(msg)));
      context := context[IntentKey := intent];
    } else {
      intent := context[IntentKey];
    }
  }

  /** The lookup's outcome: an unknown id is dropped from the context, a found complaint clears it. */
  predicate LookedUp(id: Json, db: Db, context0: Context, resp: Response)
  {
    var found := db.complaint(id);
    && (found.None? ==> resp.reply == ComplaintNotFound && resp.context == context0 - {ComplaintId})
    && (found.Some? ==> resp.reply == StatusOf(found.value) && resp.context == map[])
  }

  /** The status flow: find the complaint id (from the context or the message), then look it up. */
  method TrackStatus(msg: string, context0: Context, db: Db) returns (resp: Response)
    ensures resp.intent == "check_status"
    ensures Truthy(Get(context0, ComplaintId)) ==> LookedUp(context0[ComplaintId], db, context0, resp)
    ensures !Truthy(Get(context0, ComplaintId)) ==>
      var words := Split(msg);
      && (resp.reply == AskComplaintId <==>
            !exists i :: FirstNumberAt(words, i) && Text.DigitsValue(words[i]) != 0)
      && (resp.reply == AskComplaintId ==> resp.context == context0)
      && (resp.reply != AskComplaintId ==>
            exists i :: FirstNumberAt(words, i) && LookedUp(JInt(Text.DigitsValue(words[i])), db, context0, resp))
  {
    var context := context0;
    if !Truthy(Get(context, ComplaintId)) {
      var words := Split(msg);
      var complaintId := FirstNumber(words);
      if complaintId.Some? && complaintId.value != 0 {
        context := context[ComplaintId := JInt(complaintId.value)];
      } else {
        if complaintId.Some? {
          forall i | FirstNumberAt(words, i)
            ensures Text.DigitsValue(words[i]) == 0
          {
            var k :| FirstNumberAt(words, k) && complaintId.value == Text.DigitsValue(words[k]);
            assert !(i < k) && !(k < i);
          }
        }
        resp := Response(AskComplaintId, "check_status", context);
        return;
      }
    }
    var found := db.complaint(context[ComplaintId]);
    if found.None? {
      context := context - {ComplaintId};
      resp := Response(ComplaintNotFound, "check_status", context);
      return;
    }
    context := map[];
    resp := Response(StatusOf(found.value), "check_status", context);
  }

  /** `.limit(10)` on the newest-first list. */
  function FirstTen(ids: seq<int>): (r: seq<int>)
    ensures |r| <= 10 && r <= ids
    ensures |ids| <= 10 ==> r == ids
  {
    if |ids| <= 10 then ids else ids[..10]
  }

  /** The complaint list: sign-in required, then at most the ten newest ids, and an empty context. */
  predicate ListOutcome(userId: Option<int>, db: Db, resp: Response)
  {
    && resp.intent == "list_complaints" && resp.context == map[]
    && (!SignedIn(userId) ==> resp.reply == LoginToList)
    && (SignedIn(userId) ==>
          var ids := db.complaintsOf(userId.value);
          resp.reply == if ids == [] then NoComplaints else ComplaintList(FirstTen(ids)))
  }

  /** The status flow, by where the id comes from. */
  ghost predicate StatusOutcome(msg: string, c: Context, db: Db, resp: Response)
  {
    && resp.intent == "check_status"
    && (Truthy(Get(c, ComplaintId)) ==> LookedUp(c[ComplaintId], db, c, resp))
    && (!Truthy(Get(c, ComplaintId)) ==>
          var words := Split(msg);
          && (resp.reply == AskComplaintId <==>
                !exists i :: FirstNumberAt(words, i) && Text.DigitsValue(words[i]) != 0)
          && (resp.reply == AskComplaintId ==> resp.context == c)
          && (resp.reply != AskComplaintId ==>
                exists i :: FirstNumberAt(words, i) && LookedUp(JInt(Text.DigitsValue(words[i])), db, c, resp)))
  }

  /** Step 1 with no district chosen yet: only an in-range number picks one; otherwise the context is unchanged. */
  predicate DistrictOutcome(msg: string, c: Context, db: Db, resp: Response)
  {
    if PicksIndex(msg, |db.districts|) then
      var d := Picked(msg, db.districts);
      resp == Response(DistrictChosen(d), "file_complaint", c[DistrictId := JInt(d.id)][DistrictName := JStr(d.name)])
    else
      resp == Response(if Text.IsDigits(msg) then InvalidDistrict else AskDistrict, "file_complaint", c)
  }

  /** Step 2 with a district chosen: a selected municipality is recorded; otherwise the context is unchanged. */
  ghost predicate MunicipalityOutcome(msg: string, c: Context, municipalities: seq<Place>, resp: Response)
  {
    && resp.intent == "file_complaint"
    && (resp.reply.MunicipalityChosen? || resp.reply == InvalidMunicipality)
    && (resp.reply.MunicipalityChosen? ==>
          var m := resp.reply.municipality;
          && SelectsMunicipality(msg, municipalities, Some(m))
          && resp.context == c[MunicipalityId := JInt(m.id)][MunicipalityName := JStr(m.name)])
    && (resp.reply == InvalidMunicipality ==>
          SelectsMunicipality(msg, municipalities, None) && resp.context == c)
  }

  /** Step 3: only an in-range number picks a ward; otherwise the context is unchanged. */
  predicate WardOutcome(msg: string, c: Context, wards: seq<Place>, resp: Response)
  {
    if PicksIndex(msg, |wards|) then
      var w := Picked(msg, wards);
      resp == Response(WardChosen(w), "file_complaint", c[WardId := JInt(w.id)][WardNumber := JStr(w.name)])
    else
      resp == Response(if Text.IsDigits(msg) then InvalidWard else AskWard, "file_complaint", c)
  }

  /**
   * Filing once every step is done: the description (the context's, or
   * this message) is classified, the complaint is inserted and the context
   * cleared. A missing district id fails before the insert, a missing ward
   * number after it; a fallback label that cannot be resolved fails first.
   */
  predicate FileOutcome(userId: Option<int>, c: Context, db: Db, labels: Option<Labels>, resp: Response)
    requires ProblemDescription in c && WardId in c
  {
    if labels.None? || DistrictId !in c then resp.reply == ServerError(None)
    else
      var filed := NewComplaint(db.nextId, userId, labels.value.department, labels.value.urgency,
                                c[ProblemDescription], c[WardId]);
      if WardNumber in c then resp == Response(Filed(filed), "file_complaint", map[])
      else resp.reply == ServerError(Some(filed))
  }

  /** Steps 2 to 4 and the filing, as every turn that gets past step 1 runs them. */
  ghost predicate StepsOutcome(msg: string, userId: Option<int>, c: Context, db: Db, labels: Option<Labels>, resp: Response)
  {
    && (!Truthy(Get(c, MunicipalityId)) && !Truthy(Get(c, DistrictId)) ==>
          resp == Response(AskDistrict, "file_grievance", c))
    && (!Truthy(Get(c, MunicipalityId)) && Truthy(Get(c, DistrictId)) ==>
          MunicipalityOutcome(msg, c, db.municipalities(c[DistrictId]), resp))
    && (Truthy(Get(c, MunicipalityId)) && !Truthy(Get(c, WardId)) ==>
          WardOutcome(msg, c, db.wards(c[MunicipalityId]), resp))
    && (Truthy(Get(c, MunicipalityId)) && Truthy(Get(c, WardId)) && !Truthy(Get(c, ProblemDescription)) && |msg| < 10 ==>
          resp == Response(DescriptionTooShort, "file_complaint", c))
    && (Truthy(Get(c, MunicipalityId)) && Truthy(Get(c, WardId)) && Truthy(Get(c, ProblemDescription)) ==>
          FileOutcome(userId, c, db, labels, resp))
    && (Truthy(Get(c, MunicipalityId)) && Truthy(Get(c, WardId)) && !Truthy(Get(c, ProblemDescription)) && |msg| >= 10 ==>
          FileOutcome(userId, c[ProblemDescription := JStr(msg)], db, labels, resp))
  }

  /** The list flow (lines 138-175). */
  method ListComplaintsReply(userId: Option<int>, db: Db) returns (resp: Response)
    ensures ListOutcome(userId, db, resp)
  {
    if !SignedIn(userId) {
      return Response(LoginToList, "list_complaints", map[]);
    }
    var complaints := FirstTen(db.complaintsOf(userId.value));
    if complaints == [] {
      return Response(NoComplaints, "list_complaints", map[]);
    }
    resp := Response(ComplaintList(complaints), "list_complaints", map[]);
  }

  /** Step 1 of the filing flow, with no district chosen yet (lines 276-307). */
  method DistrictStep(msg: string, context0: Context, db: Db) returns (resp: Response)
    ensures DistrictOutcome(msg, context0, db, resp)
  {
    var context := context0;
    var districts := db.districts;
    if Text.IsDigits(msg) {
      var idx := Text.DigitsValue(msg) - 1;
      if 0 <= idx < |districts| {
        var d := districts[idx];
        context := context[DistrictId := JInt(d.id)];
        context := context[DistrictName := JStr(d.name)];
        return Response(DistrictChosen(d), "file_complaint", context);
      }
      return Response(InvalidDistrict, "file_complaint", context);
    }
    resp := Response(AskDistrict, "file_complaint", context);
  }

  /** Steps 2 to 4 and the filing (lines 309-469). */
  method FilingSteps(msg: string, userId: Option<int>, context0: Context, db: Db,
                     predicted: Option<(LabelConverter.PyValue, LabelConverter.PyValue)>,
                     urgencyMap: map<int, string>, departmentMap: map<int, string>) returns (resp: Response)
    ensures StepsOutcome(msg, userId, context0, db, Classify(predicted, urgencyMap, departmentMap), resp)
    ensures !Truthy(Get(context0, MunicipalityId)) && !Truthy(Get(context0, DistrictId)) ==>
      resp == Response(AskDistrict, "file_grievance", context0)
    ensures !(resp.reply.HelpText? || resp.reply.LlmAnswer? || resp.reply.Fallback?)
  {
    var context := context0;
    // Step 2: municipality
    if !Truthy(Get(context, MunicipalityId)) {
      var districtId := Get(context, DistrictId);
      if !Truthy(districtId) {
        return Response(AskDistrict, "file_grievance", context);
      }
      var selected := SelectMunicipality(msg, db.municipalities(districtId));
      if selected.Some? {
        var m := selected.value;
        context := context[MunicipalityId := JInt(m.id)];
        context := context[MunicipalityName := JStr(m.name)];
        return Response(MunicipalityChosen(m), "file_complaint", context);
      }
      return Response(InvalidMunicipality, "file_complaint", context);
    }
    // Step 3: ward
    if !Truthy(Get(context, WardId)) {
      var wards := db.wards(Get(context, MunicipalityId));
      if Text.IsDigits(msg) {
        var idx := Text.DigitsValue(msg) - 1;
        if 0 <= idx < |wards| {
          var w := wards[idx];
          context := context[WardId := JInt(w.id)];
          context := context[WardNumber := JStr(w.name)];
          return Response(WardChosen(w), "file_complaint", context);
        }
        return Response(InvalidWard, "file_complaint", context);
      }
      return Response(AskWard, "file_complaint", context);
    }
    // Step 4: description
    if !Truthy(Get(context, ProblemDescription)) {
      if |msg| >= 10 {
        context := context[ProblemDescription := JStr(msg)];
      } else {
        return Response(DescriptionTooShort, "file_complaint", context);
      }
    }
    // Filing
    var labels := Classify(predicted, urgencyMap, departmentMap);
    if labels.None? || DistrictId !in context {
      return Response(ServerError(None), "", map[]);
    }
    var filed := NewComplaint(db.nextId, userId, labels.value.department, labels.value.urgency,
                              context[ProblemDescription], context[WardId]);
    if WardNumber !in context {
      return Response(ServerError(Some(filed)), "", map[]);
    }
    context := map[];
    resp := Response(Filed(filed), "file_complaint", context);
  }

  /** The turn up to the filing steps: greeting, list, status, and step 1 for the filing intent. */
  ghost predicate FrontOutcome(msg: string, intent: Json, userId: Option<int>, c: Context, db: Db, resp: Response)
  {
    && (AsIntent(intent) == Some(Greeting) ==> resp == Response(Welcome, "greeting", map[]))
    && (AsIntent(intent) == Some(ListComplaints) ==> ListOutcome(userId, db, resp))
    && (AsIntent(intent) == Some(CheckStatus) ==> StatusOutcome(msg, c, db, resp))
    && (AsIntent(intent) == Some(FileComplaint) && !SignedIn(userId) ==>
          resp == Response(LoginToFile, "file_complaint", map[]))
    && (AsIntent(intent) == Some(FileComplaint) && SignedIn(userId) && !Truthy(Get(c, DistrictId)) ==>
          DistrictOutcome(msg, c, db, resp))
  }

  /** The intents the turn answers before the filing steps are reached. */
  predicate AnsweredEarly(intent: Json, userId: Option<int>, c: Context)
  {
    AsIntent(intent) in {Some(Greeting), Some(ListComplaints), Some(CheckStatus)}
    || (AsIntent(intent) == Some(FileComplaint) && (!SignedIn(userId) || !Truthy(Get(c, DistrictId))))
  }

  /** Lines 126-307: the replies before step 2, or None when the turn goes on to it. */
  method Front(msg: string, intent: Json, userId: Option<int>, context: Context, db: Db) returns (done: Option<Response>)
    ensures done.Some? <==> AnsweredEarly(intent, userId, context)
    ensures done.Some? ==> FrontOutcome(msg, intent, userId, context, db, done.value)
    ensures done.Some? ==> !(done.value.reply.HelpText? || done.value.reply.LlmAnswer? || done.value.reply.Fallback?)
  {
    var which := AsIntent(intent);
    if which == Some(Greeting) {
      return Some(Response(Welcome, "greeting", map[]));
    }
    if which == Some(ListComplaints) {
      var r := ListComplaintsReply(userId, db);
      return Some(r);
    }
    if which == Some(CheckStatus) {
      var r := TrackStatus(msg, context, db);
      return Some(r);
    }
    if which == Some(FileComplaint) {
      if !SignedIn(userId) {
        return Some(Response(LoginToFile, "file_complaint", map[]));
      }
      if !Truthy(Get(context, DistrictId)) {
        var r := DistrictStep(msg, context, db);
        return Some(r);
      }
    }
    done := None;
  }

  /**
   * chatbot_message as written: steps 2 to 4 and the filing sit after the
   * file_complaint branch, not inside it, so every turn that is not
   * answered earlier runs them, whatever its intent. The help and unknown
   * replies below them are never reached.
   */
  method ChatbotMessage(message: string, userId: Option<int>, context0: Context, db: Db,
                        predicted: Option<(LabelConverter.PyValue, LabelConverter.PyValue)>,
                        urgencyMap: map<int, string>, departmentMap: map<int, string>) returns (resp: Response)
    ensures var msg := Text.PyStrip(message);
      var (intent, c) := Detection(context0, msg);
      && (AnsweredEarly(intent, userId, c) ==> FrontOutcome(msg, intent, userId, c, db, resp))
      && (!AnsweredEarly(intent, userId, c) ==>
            StepsOutcome(msg, userId, c, db, Classify(predicted, urgencyMap, departmentMap), resp))
    ensures !(resp.reply.HelpText? || resp.reply.LlmAnswer? || resp.reply.Fallback?)
    ensures var msg := Text.PyStrip(message);
      var (intent, c) := Detection(context0, msg);
      AsIntent(intent) == Some(Help) && !Truthy(Get(c, DistrictId)) && !Truthy(Get(c, MunicipalityId)) ==>
        resp == Response(AskDistrict, "file_grievance", c)
  {
    var msg, intent, context := DetectTurn(message, context0);
    var done := Front(msg, intent, userId, context, db);
    if done.Some? {
      return done.value;
    }
    resp := FilingSteps(msg, userId, context, db, predicted, urgencyMap, departmentMap);
  }

  /**
   * chatbot_message with steps 2 to 4 nested under the filing intent, as
   * the help and unknown handlers after them evidently intend: help gets
   * the help text, unknown the documentation-backed answer (or the
   * fallback text when that call raises), and the filing flow is as before.
   * A turn with none of the six intents falls off the end (None), which
   * the framework turns into a server error.
   */
  method ChatbotMessageNested(message: string, userId: Option<int>, context0: Context, db: Db,
                              predicted: Option<(LabelConverter.PyValue, LabelConverter.PyValue)>,
                              urgencyMap: map<int, string>, departmentMap: map<int, string>,
                              llm: Option<string>) returns (resp: Response)
    ensures var msg := Text.PyStrip(message);
      var (intent, c) := Detection(context0, msg);
      && (AnsweredEarly(intent, userId, c) ==> FrontOutcome(msg, intent, userId, c, db, resp))
      && (!AnsweredEarly(intent, userId, c) && AsIntent(intent) == Some(FileComplaint) ==>
            StepsOutcome(msg, userId, c, db, Classify(predicted, urgencyMap, departmentMap), resp))
      && (AsIntent(intent) == Some(Help) ==> resp == Response(HelpText, "help", map[]))
      && (AsIntent(intent) == Some(Unknown) ==>
            resp == Response(if llm.Some? then LlmAnswer(llm.value) else Fallback, "unknown", map[]))
      && (AsIntent(intent).None? ==> resp.reply == ServerError(None))
  {
    var msg, intent, context := DetectTurn(message, context0);
    var done := Front(msg, intent, userId, context, db);
    if done.Some? {
      return done.value;
    }
    var which := AsIntent(intent);
    if which == Some(FileComplaint) {
      resp := FilingSteps(msg, userId, context, db, predicted, urgencyMap, departmentMap);
    } else if which == Some(Help) {
      resp := Response(HelpText, "help", map[]);
    } else if which == Some(Unknown) {
      resp := Response(if llm.Some? then LlmAnswer(llm.value) else Fallback, "unknown", map[]);
    } else {
      resp := Response(ServerError(None), "", map[]);
    }
  }
}
