/**
 * The request schema of the classifier services: the `text` field is a
 * string or a list of strings. The field validator strips a string and
 * rejects a blank one, rejects an empty list and names the first item that
 * is not a non-blank string, and rejects any other value with a type error.
 * Two of the services then clean the accepted text element by element.
 */
module TextInputSchema {
  import opened Wrappers
  import Text
  import TextCleaning

  /** The JSON value posted as `text`. */
  datatype Value = JStr(s: string) | JList(items: seq<Value>) | JOther

  /** The accepted field: one string or a list of strings. */
  datatype TextField = One(s: string) | Many(items: seq<string>)

  datatype SchemaError = ValueError(msg: string) | TypeError(msg: string)

  /** A list item the validator accepts: a string that is not blank. */
  predicate GoodItem(v: Value)
  {
    v.JStr? && Text.PyStrip(v.s) != ""
  }

  /** The first index from i on whose item is not accepted. */
  function FirstBad(items: seq<Value>, i: nat): (r: Option<nat>)
    requires i <= |items|
    ensures r.None? ==> forall j :: i <= j < |items| ==> GoodItem(items[j])
    ensures r.Some? ==>
      && i <= r.value < |items| && !GoodItem(items[r.value])
      && forall j :: i <= j < r.value ==> GoodItem(items[j])
    decreases |items| - i
  {
    if i == |items| then None
    else if !GoodItem(items[i]) then Some(i)
    else FirstBad(items, i + 1)
  }

  /** The strings of a list whose items are all strings. */
  function Strings(items: seq<Value>): (r: seq<string>)
    requires forall j :: 0 <= j < |items| ==> items[j].JStr?
    ensures |r| == |items| && forall j :: 0 <= j < |items| ==> r[j] == items[j].s
  {
    if items == [] then [] else [items[0].s] + Strings(items[1..])
  }

  /** The JSON list of the given strings. */
  function Values(ss: seq<string>): (r: seq<Value>)
    ensures |r| == |ss| && forall j :: 0 <= j < |ss| ==> r[j] == JStr(ss[j])
  {
    if ss == [] then [] else [JStr(ss[0])] + Values(ss[1..])
  }

  /**
   * validate_text: a string comes back stripped, a list comes back with
   * its items as posted, and only a value of neither type is a TypeError.
   */
  function ValidateText(v: Value): (r: Result<TextField, SchemaError>)
    ensures r.Err? && r.error.TypeError? <==> v.JOther?
    ensures r.Ok? ==> (r.value.One? <==> v.JStr?)
    ensures r.Ok? && r.value.One? ==> v.JStr? && r.value.s == Text.PyStrip(v.s)
    ensures r.Ok? && r.value.Many? ==> v.JList? && Values(r.value.items) == v.items
  {
    match v
    case JStr(s) =>
      var t := Text.PyStrip(s);
      if t == "" then Err(ValueError("String input cannot be empty.")) else Ok(One(t))
    case JList(items) =>
      if items == [] then Err(ValueError("List input cannot be empty."))
      else
        var bad := FirstBad(items, 0);
        if bad.Some? then Err(ValueError("Item " + Text.IntText(bad.value) + " in list is not a valid non-empty string."))
        else
          var ss := Strings(items);
          assert Values(ss) == items;
          Ok(Many(ss))
    case JOther => Err(TypeError("Input must be a string or a list of strings."))
  }

  /** A string is accepted exactly when it is not blank, and then it comes back stripped (see StrippedEnds). */
  lemma ValidateString(s: string)
    ensures ValidateText(JStr(s)).Ok? <==> !Text.AllSpace(s, Text.IsPySpace)
    ensures ValidateText(JStr(s)).Err? ==> ValidateText(JStr(s)).error == ValueError("String input cannot be empty.")
    ensures ValidateText(JStr(s)).Ok? ==> ValidateText(JStr(s)) == Ok(One(Text.PyStrip(s)))
  {
    Text.TrimEmptyIffAllSpace(s, Text.IsPySpace);
  }

  /** What str.strip() returns neither starts nor ends with whitespace. */
  lemma StrippedEnds(s: string)
    ensures var t := Text.PyStrip(s);
      t != "" ==> !Text.IsPySpace(t[0]) && !Text.IsPySpace(t[|t| - 1])
  {
    var t := Text.Trim(s, Text.IsPySpace);
    assert t == [] || (!Text.IsPySpace(t[0]) && !Text.IsPySpace(t[|t| - 1]));
  }

  /** A list is accepted exactly when it is non-empty and every item is a non-blank string. */
  lemma ValidateList(items: seq<Value>)
    ensures ValidateText(JList(items)).Ok? <==> |items| > 0 && forall j :: 0 <= j < |items| ==> GoodItem(items[j])
    ensures items == [] ==> ValidateText(JList(items)) == Err(ValueError("List input cannot be empty."))
  {
    if |items| > 0 && FirstBad(items, 0).Some? {
      assert !GoodItem(items[FirstBad(items, 0).value]);
    }
  }

  /** The index a rejected non-empty list names is its first item that is not a non-blank string. */
  lemma ListErrorNamesFirstBad(items: seq<Value>, i: nat)
    requires i < |items| && !GoodItem(items[i]) && forall j :: 0 <= j < i ==> GoodItem(items[j])
    ensures ValidateText(JList(items)) ==
      Err(ValueError("Item " + Text.IntText(i) + " in list is not a valid non-empty string."))
  {
    var bad := FirstBad(items, 0);
    assert bad.Some?;
    assert bad.value == i;
  }

  /** Validation is stable: what the validator returns passes it again unchanged. */
  lemma ValidateTextStable(v: Value)
    requires ValidateText(v).Ok?
    ensures var f := ValidateText(v).value;
      f.One? ==> ValidateText(JStr(f.s)) == Ok(f)
    ensures var f := ValidateText(v).value;
      f.Many? ==> ValidateText(JList(Values(f.items))) == Ok(f)
  {
    if v.JStr? {
      StripIdempotent(v.s);
    }
  }

  /** Stripping twice strips no more than once. */
  lemma StripIdempotent(s: string)
    ensures Text.PyStrip(Text.PyStrip(s)) == Text.PyStrip(s)
  {
    var t := Text.PyStrip(s);
    if t != [] {
      Text.StripKeeps(t);
    }
  }

  /** The after-validator of the two cleaning services: clean_text on the string or on each item. */
  function CleanField(f: TextField): (r: TextField)
    ensures f.One? ==> r == One(TextCleaning.CleanText(f.s))
    ensures f.Many? ==>
      && r.Many? && |r.items| == |f.items|
      && forall j :: 0 <= j < |f.items| ==> r.items[j] == TextCleaning.CleanText(f.items[j])
  {
    match f
    case One(s) => One(TextCleaning.CleanText(s))
    case Many(items) => Many(seq(|items|, j requires 0 <= j < |items| => TextCleaning.CleanText(items[j])))
  }

  /** TextInput of the department and urgency services: validate, then clean. */
  function CleanedTextInput(v: Value): (r: Result<TextField, SchemaError>)
    ensures r.Ok? <==> ValidateText(v).Ok?
    ensures r.Err? ==> r.error == ValidateText(v).error
    ensures r.Ok? && v.JStr? ==> r.value == One(TextCleaning.CleanText(Text.PyStrip(v.s)))
    ensures r.Ok? && v.JList? ==>
      && r.value.Many? && |r.value.items| == |v.items|
      && forall j :: 0 <= j < |v.items| ==> v.items[j].JStr? && r.value.items[j] == TextCleaning.CleanText(v.items[j].s)
  {
    var validated := ValidateText(v);
    if validated.Err? then Err(validated.error) else Ok(CleanField(validated.value))
  }

  /** TextInput of the standalone department service: validation only, so list items come back as posted. */
  function PlainTextInput(v: Value): (r: Result<TextField, SchemaError>)
    ensures r.Ok? && v.JList? ==> r.value.Many? && Values(r.value.items) == v.items
  {
    ValidateText(v)
  }

  /**
   * Cleaning runs after validation, so a text that is only a URL passes
   * the non-empty check and still reaches the classifier as "" — alone or
   * as a list item.
   */
  lemma UrlOnlyPassesAsEmpty(w: string)
    requires w != [] && forall i :: 0 <= i < |w| ==> !Text.IsPySpace(w[i])
    ensures CleanedTextInput(JStr("http://" + w)) == Ok(One(""))
    ensures CleanedTextInput(JList([JStr("http://" + w)])) == Ok(Many([""]))
  {
    var u := "http://" + w;
    TextCleaning.UrlOnlyCleansToEmpty(w);
    assert u[0] == 'h';
    ValidateString(u);
    assert GoodItem(JStr(u));
    ValidateList([JStr(u)]);
    var r := CleanedTextInput(JList([JStr(u)]));
    assert r.value.items == [""];
  }
}
