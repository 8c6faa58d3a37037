/**
 * The shared component utilities: flattening platform errors into a list of
 * messages, labels and camel-case names built from developer names, clock and
 * ISO 8601 date-time formatting, a local-storage cache whose items expire, and
 * snake-case text made readable.
 */
module LwcUtils {
  import opened Js
  import opened Text

  // ---------------------------------------------------------------------------
  // reduceErrors

  /**
   * A field-error object: for each field, in key order, the `message` of
   * every error entry listed under it.
   */
  type FieldErrorMap = seq<(string, seq<JsValue>)>

  /** `body.output` of a record-operation error. */
  datatype Output = Output(errors: Option<seq<JsValue>>, fieldErrors: Option<FieldErrorMap>)

  /**
   * The `body` of an error: missing, an array (given by the `message` of each
   * entry) or an object with the properties the flattener looks at.
   */
  datatype Body =
    | NoBody
    | BodyArray(messages: seq<JsValue>)
    | BodyObject(pageErrors: Option<seq<JsValue>>, fieldErrors: Option<FieldErrorMap>,
                 output: Option<Output>, message: JsValue)

  /** One value handed over as an error: falsy (`null`, `undefined`, …) or an error object. */
  datatype ErrorValue = Falsy | Error(body: Body, message: JsValue, statusText: JsValue)

  /** The argument of `reduceErrors`: one error, or an array of errors. */
  datatype Errors = Single(error: ErrorValue) | Several(errors: seq<ErrorValue>)

  /** `reduce((prev, curr) => prev.concat(curr), [])`: the lists concatenated in order. */
  function Flatten(lists: seq<seq<JsValue>>): seq<JsValue>
  {
    if lists == [] then [] else Flatten(lists[..|lists| - 1]) + lists[|lists| - 1]
  }

  /** Flattening a concatenation of lists concatenates their flattenings. */
  lemma {:induction false} FlattenAppend(a: seq<seq<JsValue>>, b: seq<seq<JsValue>>)
    ensures Flatten(a + b) == Flatten(a) + Flatten(b)
    decreases |b|
  {
    if b == [] {
      assert a + b == a;
    } else {
      var n := |b| - 1;
      var ab := a + b;
      FlattenAppend(a, b[..n]);
      assert ab[..|ab| - 1] == a + b[..n] && ab[|ab| - 1] == b[n];
      calc {
        Flatten(ab);
        Flatten(a + b[..n]) + b[n];
        Flatten(a) + Flatten(b[..n]) + b[n];
        Flatten(a) + Flatten(b);
      }
    }
  }

  /** A message is in the flattening exactly when one of the lists holds it. */
  lemma {:induction false} FlattenMembership(lists: seq<seq<JsValue>>, m: JsValue)
    ensures m in Flatten(lists) <==> exists i | 0 <= i < |lists| :: m in lists[i]
  {
    if lists != [] {
      var n := |lists| - 1;
      var init := lists[..n];
      FlattenMembership(init, m);
      if m in Flatten(init) {
        var i :| 0 <= i < n && m in init[i];
        assert lists[i] == init[i];
      }
      if exists i | 0 <= i < |lists| :: m in lists[i] {
        var i :| 0 <= i < |lists| && m in lists[i];
        if i < n {
          assert m in init[i];
        }
      }
    }
  }

  /** The message lists of a field-error object, field by field in key order. */
  function FieldLists(fields: FieldErrorMap): seq<seq<JsValue>>
  {
    seq(|fields|, i requires 0 <= i < |fields| => fields[i].1)
  }

  /** The messages of a field-error object, field by field and within a field in list order. */
  function FieldMessages(fields: FieldErrorMap): seq<JsValue>
  {
    Flatten(FieldLists(fields))
  }

  /** The `forEach` that pushes every field's messages onto one list. */
  method CollectFieldMessages(fields: FieldErrorMap) returns (fieldErrors: seq<JsValue>)
    ensures fieldErrors == FieldMessages(fields)
  {
    ghost var lists := FieldLists(fields);
    fieldErrors := [];
    var i := 0;
    while i < |fields|
      invariant 0 <= i <= |fields|
      invariant fieldErrors == Flatten(lists[..i])
    {
      assert lists[..i + 1][..i] == lists[..i];
      fieldErrors := fieldErrors + fields[i].1;
      i := i + 1;
    }
    assert lists[..i] == lists;
  }

  /** A message is collected exactly when some field lists it. */
  lemma FieldMessagesMembership(fields: FieldErrorMap, m: JsValue)
    ensures m in FieldMessages(fields) <==> exists i | 0 <= i < |fields| :: m in fields[i].1
  {
    var lists := FieldLists(fields);
    FlattenMembership(lists, m);
    if exists i | 0 <= i < |fields| :: m in fields[i].1 {
      var i :| 0 <= i < |fields| && m in fields[i].1;
      assert m in lists[i];
    }
  }

  /**
   * The messages of one error, from the first shape that matches: a body
   * array, non-empty page errors, a non-empty field-error object, non-empty
   * output errors, a non-empty output field-error object, a string body
   * message, a string message, and last the HTTP status text.
   */
  function Messages(error: ErrorValue): seq<JsValue>
    requires error.Error?
  {
    match error.body
    case BodyArray(messages) => messages
    case NoBody => OwnMessage(error)
    case BodyObject(pageErrors, fieldErrors, output, message) =>
      if pageErrors.Some? && |pageErrors.value| > 0 then pageErrors.value
      else if fieldErrors.Some? && |fieldErrors.value| > 0 then FieldMessages(fieldErrors.value)
      else if output.Some? && output.value.errors.Some? && |output.value.errors.value| > 0
      then output.value.errors.value
      else if output.Some? && output.value.fieldErrors.Some? && |output.value.fieldErrors.value| > 0
      then FieldMessages(output.value.fieldErrors.value)
      else if message.Str? then [message]
      else OwnMessage(error)
  }

  /** The last two shapes: the error's own string message, else its status text. */
  function OwnMessage(error: ErrorValue): seq<JsValue>
    requires error.Error?
  {
    if error.message.Str? then [error.message] else [error.statusText]
  }

  /** The messages of one value: none for a falsy one. */
  function ErrorMessages(error: ErrorValue): seq<JsValue>
  {
    if error.Error? then Messages(error) else []
  }

  /** The `filter` of falsy values followed by the `map` to message lists. */
  function MessageLists(errors: seq<ErrorValue>): seq<seq<JsValue>>
  {
    seq(|errors|, i requires 0 <= i < |errors| => ErrorMessages(errors[i]))
  }

  /** The truthy messages, in order. */
  function TruthyOnly(messages: seq<JsValue>): seq<JsValue>
  {
    if messages == [] then []
    else
      var last := messages[|messages| - 1];
      TruthyOnly(messages[..|messages| - 1]) + (if Truthy(last) then [last] else [])
  }

  /** `reduceErrors`: a single error is first wrapped into a one-element list. */
  function ReduceErrors(errors: Errors): seq<JsValue>
  {
    var list := if errors.Single? then [errors.error] else errors.errors;
    TruthyOnly(Flatten(MessageLists(list)))
  }

  /** A message survives the final filter exactly when it is truthy. */
  lemma {:induction false} TruthyOnlyMembership(messages: seq<JsValue>, m: JsValue)
    ensures m in TruthyOnly(messages) <==> m in messages && Truthy(m)
  {
    if messages != [] {
      var n := |messages| - 1;
      TruthyOnlyMembership(messages[..n], m);
      assert messages == messages[..n] + [messages[n]];
    }
  }

  /** Filtering a concatenation filters each part. */
  lemma {:induction false} TruthyOnlyAppend(a: seq<JsValue>, b: seq<JsValue>)
    ensures TruthyOnly(a + b) == TruthyOnly(a) + TruthyOnly(b)
    decreases |b|
  {
    if b == [] {
      assert a + b == a;
    } else {
      var n := |b| - 1;
      TruthyOnlyAppend(a, b[..n]);
      assert (a + b)[..|a + b| - 1] == a + b[..n];
    }
  }

  /** `reduceErrors` never returns an empty or otherwise falsy message. */
  lemma ReduceErrorsTruthy(errors: Errors)
    ensures forall m | m in ReduceErrors(errors) :: Truthy(m)
  {
    var list := if errors.Single? then [errors.error] else errors.errors;
    forall m | m in ReduceErrors(errors) ensures Truthy(m) {
      TruthyOnlyMembership(Flatten(MessageLists(list)), m);
    }
  }

  /**
   * A message is returned exactly when it is truthy and one of the non-falsy
   * errors carries it.
   */
  lemma ReduceErrorsMembership(errors: seq<ErrorValue>, m: JsValue)
    ensures m in ReduceErrors(Several(errors))
        <==> Truthy(m) && exists i | 0 <= i < |errors| :: m in ErrorMessages(errors[i])
  {
    var lists := MessageLists(errors);
    TruthyOnlyMembership(Flatten(lists), m);
    FlattenMembership(lists, m);
    if exists i | 0 <= i < |errors| :: m in ErrorMessages(errors[i]) {
      var i :| 0 <= i < |errors| && m in ErrorMessages(errors[i]);
      assert m in lists[i];
    }
  }

  /**
   * The errors are reduced one after the other: the messages of a list of
   * errors are those of its first part followed by those of the rest.
   */
  lemma ReduceErrorsAppend(a: seq<ErrorValue>, b: seq<ErrorValue>)
    ensures ReduceErrors(Several(a + b)) == ReduceErrors(Several(a)) + ReduceErrors(Several(b))
  {
    MessageListsAppend(a, b);
    FlattenAppend(MessageLists(a), MessageLists(b));
    TruthyOnlyAppend(Flatten(MessageLists(a)), Flatten(MessageLists(b)));
  }

  /** Each error keeps its own list of messages when lists of errors are concatenated. */
  lemma MessageListsAppend(a: seq<ErrorValue>, b: seq<ErrorValue>)
    ensures MessageLists(a + b) == MessageLists(a) + MessageLists(b)
  {
    var whole, parts := MessageLists(a + b), MessageLists(a) + MessageLists(b);
    forall i | 0 <= i < |whole| ensures whole[i] == parts[i] {
      if i < |a| {
        assert (a + b)[i] == a[i];
      } else {
        assert (a + b)[i] == b[i - |a|];
      }
    }
  }

  /**
   * A single error is treated as a one-element list; a falsy one gives no
   * message, any other one its own truthy messages.
   */
  lemma ReduceErrorsSingle(error: ErrorValue)
    ensures ReduceErrors(Single(error)) == ReduceErrors(Several([error]))
    ensures error.Falsy? ==> ReduceErrors(Single(error)) == []
    ensures error.Error? ==> ReduceErrors(Single(error)) == TruthyOnly(Messages(error))
  {
    var lists := MessageLists([error]);
    assert lists == [ErrorMessages(error)];
    assert lists[..0] == [];
    assert Flatten(lists) == ErrorMessages(error);
  }

  /** A field error on `Name` whose message is `Required` reduces to `["Required"]`. */
  lemma ReduceErrorsFieldExample()
    ensures ReduceErrors(Single(Error(BodyObject(None, Some([("Name", [Str("Required")])]), None, Undefined),
                                      Undefined, Undefined)))
         == [Str("Required")]
  {
    var required := [Str("Required")];
    var fields: FieldErrorMap := [("Name", required)];
    var error := Error(BodyObject(None, Some(fields), None, Undefined), Undefined, Undefined);
    assert FieldLists(fields) == [required];
    var lists: seq<seq<JsValue>> := [required];
    assert lists[..0] == [];
    assert Flatten(lists) == Flatten(lists[..0]) + required;
    assert FieldMessages(fields) == required;
    assert Messages(error) == required;
    assert required[..0] == [];
    assert TruthyOnly(required) == required;
    ReduceErrorsSingle(error);
  }

  // ---------------------------------------------------------------------------
  // Names and labels

  /** `s.charAt(0).toUpperCase() + s.slice(1)` (ASCII letters only). */
  function Capitalize(s: string): (r: string)
    ensures |r| == |s|
    ensures s != [] ==> r[0] == UpperChar(s[0]) && r[1..] == s[1..]
  {
    if s == [] then "" else [UpperChar(s[0])] + s[1..]
  }

  /**
   * `s.split(/(?=[A-Z])/g)`: `s` cut before every upper-case letter after its
   * first character, so no piece is empty unless `s` is.
   */
  function Words(s: string): (words: seq<string>)
    ensures 1 <= |words|
    ensures s != [] ==> words[0] != [] && words[0][0] == s[0]
  {
    if |s| <= 1 then [s]
    else
      var rest := Words(s[1..]);
      if IsUpper(s[1]) then [[s[0]]] + rest else [[s[0]] + rest[0]] + rest[1..]
  }

  /** Reference definition: a space inserted before every upper-case letter after the first character. */
  function Spaced(s: string): string
  {
    if s == [] then [] else [s[0]] + SpaceBeforeUpper(s[1..])
  }

  function SpaceBeforeUpper(s: string): string
  {
    if s == [] then [] else (if IsUpper(s[0]) then [' ', s[0]] else [s[0]]) + SpaceBeforeUpper(s[1..])
  }

  /** `getLabelFromDevName`: a missing name reads as the empty string. */
  function GetLabelFromDevName(devName: Option<string>): string
  {
    var name := if devName.Some? then devName.value else "";
    Join(Words(Capitalize(name)), ' ')
  }

  /** Joining a first piece extended at its front extends the joined string at its front. */
  lemma {:induction false} JoinExtendHead(x: string, words: seq<string>, sep: char)
    requires 1 <= |words|
    ensures Join([x + words[0]] + words[1..], sep) == x + Join(words, sep)
  {
    var w := [x + words[0]] + words[1..];
    assert w[1..] == words[1..];
  }

  /** Splitting before capitals and joining with spaces inserts a space before every later capital. */
  lemma {:induction false} JoinWordsSpaced(s: string)
    ensures Join(Words(s), ' ') == Spaced(s)
    decreases |s|
  {
    if |s| >= 2 {
      var rest := Words(s[1..]);
      JoinWordsSpaced(s[1..]);
      assert s[1..][1..] == s[2..];
      if IsUpper(s[1]) {
        assert ([[s[0]]] + rest)[1..] == rest;
      } else {
        JoinExtendHead([s[0]], rest, ' ');
      }
    } else if |s| == 1 {
      assert s[1..] == [];
    }
  }

  /**
   * The label is the capitalized name with a space before every later
   * capital, e.g. `cadenceActions` gives `Cadence Actions`; a missing name
   * gives the empty label.
   */
  lemma GetLabelFromDevNameSpaced(devName: Option<string>)
    ensures devName.None? ==> GetLabelFromDevName(devName) == ""
    ensures devName.Some? ==> GetLabelFromDevName(devName) == Spaced(Capitalize(devName.value))
  {
    JoinWordsSpaced(Capitalize(if devName.Some? then devName.value else ""));
  }

  /** The words of a string, put back together, give the string. */
  lemma {:induction false} WordsConcat(s: string)
    ensures Concat(Words(s)) == s
    decreases |s|
  {
    if |s| >= 2 {
      var rest := Words(s[1..]);
      WordsConcat(s[1..]);
      if IsUpper(s[1]) {
        assert ([[s[0]]] + rest)[1..] == rest;
      } else {
        var w := [[s[0]] + rest[0]] + rest[1..];
        assert w[1..] == rest[1..];
        assert Concat(rest) == rest[0] + Concat(rest[1..]);
      }
    }
  }

  /** Every word after the first starts with a capital. */
  lemma {:induction false} WordsStartUpper(s: string)
    ensures forall i | 1 <= i < |Words(s)| :: Words(s)[i] != [] && IsUpper(Words(s)[i][0])
    decreases |s|
  {
    if |s| >= 2 {
      WordsStartUpper(s[1..]);
    }
  }

  /** A word as the label splits them: not empty, and no capital after its first letter. */
  predicate IsWord(w: string)
  {
    w != [] && forall j | 1 <= j < |w| :: !IsUpper(w[j])
  }

  /**
   * Words put together split back into those words, when each is a word and
   * every word after the first starts with a capital.
   */
  lemma {:induction false} WordsOfConcat(words: seq<string>)
    requires 1 <= |words| && IsWord(words[0])
    requires forall i | 1 <= i < |words| :: IsWord(words[i]) && IsUpper(words[i][0])
    ensures Words(Concat(words)) == words
    decreases |Concat(words)|
  {
    var first, rest := words[0], words[1..];
    var s := Concat(words);
    assert s == first + Concat(rest);
    if |first| == 1 {
      if rest == [] {
        assert s == first;
      } else {
        assert Concat(rest) == rest[0] + Concat(rest[1..]);
        assert s[1..] == Concat(rest);
        assert s[1] == rest[0][0];
        WordsOfConcat(rest);
        assert first == [s[0]];
        assert words == [first] + rest;
      }
    } else {
      var shorter := [first[1..]] + rest;
      assert shorter[1..] == rest;
      assert s[1..] == Concat(shorter);
      WordsOfConcat(shorter);
      assert s[1] == first[1];
      assert first == [s[0]] + first[1..];
      assert words == [first] + rest;
    }
  }

  /**
   * The label of a name made of words, e.g. `cadence` and `Actions`, is the
   * words joined with spaces, the first one capitalized.
   */
  lemma GetLabelOfWords(first: string, rest: seq<string>)
    requires IsWord(first) && forall i | 0 <= i < |rest| :: IsWord(rest[i]) && IsUpper(rest[i][0])
    ensures GetLabelFromDevName(Some(first + Concat(rest))) == Join([Capitalize(first)] + rest, ' ')
  {
    var words := [Capitalize(first)] + rest;
    var name := first + Concat(rest);
    assert Capitalize(name) == Concat(words) by {
      assert words[1..] == rest;
      assert Concat(words) == Capitalize(first) + Concat(rest);
      CapitalizeAppend(first, Concat(rest));
    }
    assert Words(Concat(words)) == words by {
      assert IsWord(Capitalize(first)) by {
        assert Capitalize(first)[1..] == first[1..];
      }
      assert forall i | 1 <= i < |words| :: words[i] == rest[i - 1];
      WordsOfConcat(words);
    }
    calc {
      GetLabelFromDevName(Some(name));
      Join(Words(Capitalize(name)), ' ');
      Join(Words(Concat(words)), ' ');
      Join(words, ' ');
    }
  }

  /** `cadenceActions` gives `Cadence Actions`. */
  lemma GetLabelFromDevNameExample()
    ensures GetLabelFromDevName(Some("cadence" + "Actions")) == "Cadence" + " " + "Actions"
  {
    var first, word := "cadence", "Actions";
    var parts := [Capitalize(first)] + [word];
    assert GetLabelFromDevName(Some(first + Concat([word]))) == Join(parts, ' ') by {
      assert IsWord(first) && IsWord(word) && IsUpper(word[0]);
      GetLabelOfWords(first, [word]);
    }
    assert Concat([word]) == word;
    assert Join(parts, ' ') == Capitalize(first) + " " + word by {
      assert parts[1..] == [word];
    }
    assert Capitalize(first) == "Cadence";
  }

  /** Only the first letter of a string is capitalized, so what follows it is kept. */
  lemma CapitalizeAppend(a: string, b: string)
    requires a != []
    ensures Capitalize(a + b) == Capitalize(a) + b
  {
    assert (a + b)[1..] == a[1..] + b;
  }

  function Concat(words: seq<string>): string
  {
    if words == [] then [] else words[0] + Concat(words[1..])
  }

  /** What `getCmpName` gives: `undefined` for a missing tag name, an exception, or the name. */
  datatype CmpName = NoName | Throws | Name(name: string)

  /** The `reduce` that camel-cases the segments: each later segment capitalized and appended. */
  function CamelCase(segments: seq<string>): string
    requires 1 <= |segments|
  {
    if |segments| == 1 then segments[0]
    else CamelCase(segments[..|segments| - 1]) + Capitalize(segments[|segments| - 1])
  }

  /**
   * `getCmpName`: the host's tag name split on `-`, its namespace segment
   * dropped and the rest camel-cased. With nothing left, `reduce` without an
   * initial value throws.
   */
  function GetCmpName(localName: Option<string>): CmpName
  {
    if localName.None? then NoName
    else
      var segments := Split(localName.value, '-')[1..];
      if segments == [] then Throws else Name(CamelCase(segments))
  }

  /** A string holding the separator splits into at least two parts. */
  lemma {:induction false} SplitAtSeparator(s: string, sep: char)
    requires sep in s
    ensures |Split(s, sep)| >= 2
  {
    if s[0] != sep {
      SplitAtSeparator(s[1..], sep);
    }
  }

  /** `getCmpName` throws exactly when the tag name has no `-`. */
  lemma GetCmpNameThrows(localName: string)
    ensures GetCmpName(Some(localName)).Throws? <==> '-' !in localName
  {
    if '-' in localName {
      SplitAtSeparator(localName, '-');
    } else {
      SplitOfPiece(localName, '-');
    }
  }

  /** Capitalizing never introduces a `-`. */
  lemma CapitalizeNoDash(s: string)
    requires '-' !in s
    ensures '-' !in Capitalize(s)
  {
    if s != [] {
      assert s == [s[0]] + s[1..];
    }
  }

  /** Camel-casing segments without `-` gives a name without `-`. */
  lemma {:induction false} CamelCaseNoDash(segments: seq<string>)
    requires 1 <= |segments|
    requires forall i | 0 <= i < |segments| :: '-' !in segments[i]
    ensures '-' !in CamelCase(segments)
  {
    if |segments| > 1 {
      CamelCaseNoDash(segments[..|segments| - 1]);
      CapitalizeNoDash(segments[|segments| - 1]);
    }
  }

  /**
   * A tag name made of a namespace and one or more segments, none holding a
   * `-`, gives those segments camel-cased, e.g. `c-test-component` gives
   * `testComponent`; the name holds no `-`.
   */
  lemma GetCmpNameOfTag(namespace: string, segments: seq<string>)
    requires 1 <= |segments|
    requires '-' !in namespace
    requires forall i | 0 <= i < |segments| :: '-' !in segments[i]
    ensures GetCmpName(Some(Join([namespace] + segments, '-'))) == Name(CamelCase(segments))
    ensures '-' !in CamelCase(segments)
  {
    var parts := [namespace] + segments;
    SplitJoin(parts, '-');
    assert parts[1..] == segments;
    CamelCaseNoDash(segments);
  }

  /** `c-test-component` gives `testComponent`. */
  lemma GetCmpNameExample()
    ensures GetCmpName(Some("c" + "-" + "test" + "-" + "component")) == Name("test" + "Component")
  {
    var segments := ["test", "component"];
    assert GetCmpName(Some(Join(["c"] + segments, '-'))) == Name(CamelCase(segments)) by {
      assert '-' !in "c" && '-' !in segments[0] && '-' !in segments[1];
      GetCmpNameOfTag("c", segments);
    }
    assert Join(["c"] + segments, '-') == "c" + "-" + "test" + "-" + "component" by {
      var parts := ["c"] + segments;
      assert parts[1..] == segments && segments[1..] == ["component"];
    }
    assert CamelCase(segments) == "test" + Capitalize("component") by {
      assert segments[..1] == ["test"];
    }
    assert Capitalize("component") == "Component";
  }

  // ---------------------------------------------------------------------------
  // unformatSnakeCase

  /** `s.replace(/_/g, ' ')`. */
  function UnderscoresToSpaces(s: string): (r: string)
    ensures |r| == |s|
    ensures forall i | 0 <= i < |s| :: r[i] == (if s[i] == '_' then ' ' else s[i])
  {
    if s == [] then [] else [if s[0] == '_' then ' ' else s[0]] + UnderscoresToSpaces(s[1..])
  }

  /**
   * `unformatSnakeCase`: a value that is not a string has no `replace`, and
   * the caught error leaves the result `undefined` (`None`).
   */
  function UnformatSnakeCase(str: Option<string>): Option<string>
  {
    if str.Some? then Some(UnderscoresToSpaces(str.value)) else None
  }

  /**
   * The readable text has the length of the snake-case text, no `_` left,
   * every other character in place, and formatting it again changes nothing.
   */
  lemma UnformatSnakeCaseResult(str: Option<string>)
    ensures str.None? <==> UnformatSnakeCase(str).None?
    ensures str.Some? ==> |UnformatSnakeCase(str).value| == |str.value|
    ensures str.Some? ==> '_' !in UnformatSnakeCase(str).value
    ensures str.Some? ==> forall i | 0 <= i < |str.value| && str.value[i] != '_' ::
      UnformatSnakeCase(str).value[i] == str.value[i]
    ensures UnformatSnakeCase(UnformatSnakeCase(str)) == UnformatSnakeCase(str)
  {
    if str.Some? {
      var r := UnderscoresToSpaces(str.value);
      assert UnderscoresToSpaces(r) == r;
    }
  }

  // ---------------------------------------------------------------------------
  // Clock and date-time formatting

  predicate AllDigits(s: string)
  {
    forall i | 0 <= i < |s| :: IsDigit(s[i])
  }

  function Abs(n: int): nat
  {
    if n < 0 then -n else n
  }

  /** `pad`: the absolute value in decimal, with a `0` in front when it is a single digit. */
  function Pad(num: int): string
  {
    (if Abs(num) < 10 then "0" else "") + DecimalString(Abs(num))
  }

  /** Below 100, the padded number is exactly two digits that read back as the number. */
  lemma PadTwoDigits(n: int)
    requires 0 <= n < 100
    ensures |Pad(n)| == 2 && AllDigits(Pad(n)) && DecimalValue(Pad(n)) == n
  {
    var p := Pad(n);
    if n < 10 {
      assert p[..1] == "0";
      assert DecimalValue("0") == 0 by { assert "0"[..0] == ""; }
    } else {
      assert |DecimalString(n / 10)| == 1;
      DecimalRoundTrip(n);
    }
  }

  /**
   * `formatAMPM` on the hours (0–23) and minutes (0–59) of a date: a 12-hour
   * clock where hour 0 reads 12, minutes padded to two digits, then `AM`
   * before noon and `PM` from noon.
   */
  function FormatAmPm(hours: int, minutes: int): string
    requires 0 <= hours < 24 && 0 <= minutes < 60
  {
    var ampm := if hours >= 12 then "PM" else "AM";
    var clock := if hours % 12 == 0 then 12 else hours % 12;
    var mm := if minutes < 10 then "0" + DecimalString(minutes) else DecimalString(minutes);
    DecimalString(clock) + ":" + mm + " " + ampm
  }

  /** Reads a 12-hour clock time back into hours (0–23) and minutes. */
  function ParseAmPm(s: string): Option<(int, int)>
  {
    var i := IndexOf(s, ":");
    if i < 1 || |s| != i + 6 then None else ParseClockParts(s[..i], s[i + 1..i + 3], s[i + 3..])
  }

  /** Reads the hour, the two minute digits and the three-character suffix ` AM` or ` PM`. */
  function ParseClockParts(hh: string, mm: string, suffix: string): Option<(int, int)>
    requires |suffix| == 3
  {
    if !AllDigits(hh) || !AllDigits(mm) then None
    else
      var clock, minutes := DecimalValue(hh), DecimalValue(mm);
      if clock < 1 || 12 < clock || 60 <= minutes || suffix[0] != ' ' || suffix[2] != 'M' then None
      else if suffix[1] == 'A' then Some((clock % 12, minutes))
      else if suffix[1] == 'P' then Some((clock % 12 + 12, minutes))
      else None
  }

  /**
   * Every time of day is formatted differently and can be read back: the
   * clock hour is 1–12, the suffix says whether it is before noon and the
   * minutes are two digits.
   */
  lemma FormatAmPmRoundTrip(hours: int, minutes: int)
    requires 0 <= hours < 24 && 0 <= minutes < 60
    ensures ParseAmPm(FormatAmPm(hours, minutes)) == Some((hours, minutes))
  {
    var clock := if hours % 12 == 0 then 12 else hours % 12;
    var ampm := if hours >= 12 then "PM" else "AM";
    var hh, mm := DecimalString(clock), Pad(minutes);
    var s := hh + ":" + mm + " " + ampm;
    assert FormatAmPm(hours, minutes) == s by {
      assert mm == if minutes < 10 then "0" + DecimalString(minutes) else DecimalString(minutes);
    }
    assert ParseAmPm(s) == Some((hours, minutes)) by {
      PadTwoDigits(minutes);
      DecimalRoundTrip(clock);
      ClockHour(hours);
      ParseClock(hh, mm, ampm, hours >= 12, clock, minutes);
    }
  }

  /** The parser's reading of an hour, two minute digits and a half of the day. */
  lemma ParseClock(hh: string, mm: string, ampm: string, pm: bool, clock: int, minutes: int)
    requires 1 <= |hh| && AllDigits(hh) && DecimalValue(hh) == clock && 1 <= clock <= 12
    requires |mm| == 2 && AllDigits(mm) && DecimalValue(mm) == minutes && minutes < 60
    requires ampm == if pm then "PM" else "AM"
    ensures ParseAmPm(hh + ":" + mm + " " + ampm)
         == Some((if pm then clock % 12 + 12 else clock % 12, minutes))
  {
    ClockPieces(hh, mm, ampm);
    var s := hh + ":" + mm + " " + ampm;
    ParseClockAt(s, IndexOf(s, ":"), clock, minutes, pm);
  }

  /** The parser's reading of a string whose parts are in place. */
  lemma ParseClockAt(s: string, i: int, clock: int, minutes: int, pm: bool)
    requires i == IndexOf(s, ":") && 1 <= i && |s| == i + 6
    requires AllDigits(s[..i]) && DecimalValue(s[..i]) == clock && 1 <= clock <= 12
    requires AllDigits(s[i + 1..i + 3]) && DecimalValue(s[i + 1..i + 3]) == minutes && minutes < 60
    requires s[i + 3..] == if pm then " PM" else " AM"
    ensures ParseAmPm(s) == Some((if pm then clock % 12 + 12 else clock % 12, minutes))
  {
    var suffix := s[i + 3..];
    assert suffix[0] == ' ' && suffix[2] == 'M';
    assert suffix[1] == if pm then 'P' else 'A';
    assert ParseAmPm(s) == ParseClockParts(s[..i], s[i + 1..i + 3], suffix);
  }

  /** The clock hour and the half of the day give back the hour of the day. */
  lemma ClockHour(hours: int)
    requires 0 <= hours < 24
    ensures var clock := if hours % 12 == 0 then 12 else hours % 12;
      1 <= clock <= 12 && (if hours >= 12 then clock % 12 + 12 else clock % 12) == hours
  {
  }

  /** Where the parser finds the parts of a clock time. */
  lemma ClockPieces(hh: string, mm: string, ampm: string)
    requires 1 <= |hh| && AllDigits(hh) && |mm| == 2 && |ampm| == 2
    ensures var s := hh + ":" + mm + " " + ampm;
      var i := IndexOf(s, ":");
      && i == |hh| && |s| == i + 6
      && s[..i] == hh && s[i + 1..i + 3] == mm && s[i + 3..] == " " + ampm
  {
    var s := hh + ":" + mm + " " + ampm;
    var rest := mm + " " + ampm;
    assert s == hh + [':'] + rest;
    assert ':' !in hh by {
      forall i | 0 <= i < |hh| ensures hh[i] != ':' {
        assert IsDigit(hh[i]);
      }
    }
    IndexOfCharAfter(hh, ':', rest);
    assert ":" == [':'];
  }

  /** The fields of a date as `Date`'s local getters give them; the offset is in minutes. */
  datatype LocalDateTime = LocalDateTime(
    year: int, month: int, day: int,
    hours: int, minutes: int, seconds: int,
    timezoneOffset: int)

  /** The ranges of the getters; the offset stays within a day. */
  predicate ValidDateTime(d: LocalDateTime)
  {
    0 <= d.month < 12 && 1 <= d.day <= 31
    && 0 <= d.hours < 24 && 0 <= d.minutes < 60 && 0 <= d.seconds < 60
    && -1440 < d.timezoneOffset < 1440
  }

  /** The year in decimal, with a `-` before a negative year. */
  function YearString(year: int): string
  {
    if year < 0 then "-" + DecimalString(-year) else DecimalString(year)
  }

  /** Each separator followed by its padded number. */
  function Fields(seps: seq<char>, values: seq<int>): string
    requires |seps| == |values|
  {
    if seps == [] then "" else [seps[0]] + Pad(values[0]) + Fields(seps[1..], values[1..])
  }

  /**
   * `localIsoDatetime`: `Y-MM-DDTHH:MM:SS` and the offset `±HH:MM`, written
   * as the year followed by seven separated two-digit fields.
   */
  function LocalIsoDatetime(d: LocalDateTime): string
  {
    YearString(d.year) + Fields(IsoSeparators(d), IsoValues(d))
  }

  /** The offset east of UTC: the negated `getTimezoneOffset`. */
  function Tzo(d: LocalDateTime): int
  {
    -d.timezoneOffset
  }

  /** The separators, the offset's sign `+` when the offset is not negative. */
  function IsoSeparators(d: LocalDateTime): seq<char>
  {
    ['-', '-', 'T', ':', ':', if Tzo(d) >= 0 then '+' else '-', ':']
  }

  /**
   * The numbers, the month counted from 1. `pad` takes the absolute value and
   * drops the fraction, so the offset's parts are the whole hours and the
   * remaining minutes of the absolute offset.
   */
  function IsoValues(d: LocalDateTime): seq<int>
  {
    [d.month + 1, d.day, d.hours, d.minutes, d.seconds, Abs(Tzo(d)) / 60, Abs(Tzo(d)) % 60]
  }

  /** Reads a year back, with its sign. */
  function ParseYear(s: string): Option<int>
  {
    if |s| >= 2 && s[0] == '-' && AllDigits(s[1..]) then Some(0 - DecimalValue(s[1..]) as int)
    else if |s| >= 1 && AllDigits(s) then Some(DecimalValue(s))
    else None
  }

  /** Reads back a run of separators, each followed by two digits. */
  function DecodeFields(t: string): (r: Option<(seq<char>, seq<int>)>)
    ensures r.Some? ==> |r.value.0| == |r.value.1| && |t| == 3 * |r.value.0|
  {
    if t == [] then Some(([], []))
    else if |t| < 3 || !IsDigit(t[1]) || !IsDigit(t[2]) then None
    else
      match DecodeFields(t[3..])
      case None => None
      case Some((seps, values)) => Some(([t[0]] + seps, [DecimalValue(t[1..3])] + values))
  }

  /** Reads a local ISO date-time back into its fields. */
  function ParseLocalIsoDatetime(s: string): Option<LocalDateTime>
  {
    if |s| < 22 then None
    else
      match (ParseYear(s[..|s| - 21]), DecodeFields(s[|s| - 21..]))
      case (Some(year), Some((seps, v))) =>
        if seps[..5] == ['-', '-', 'T', ':', ':'] && (seps[5] == '+' || seps[5] == '-') && seps[6] == ':'
        then
          var tzo := if seps[5] == '+' then v[5] * 60 + v[6] else -(v[5] * 60 + v[6]);
          Some(LocalDateTime(year, v[0] - 1, v[1], v[2], v[3], v[4], -tzo))
        else None
      case _ => None
  }

  lemma YearRoundTrip(year: int)
    ensures ParseYear(YearString(year)) == Some(year)
  {
    if year < 0 {
      var digits := DecimalString(-year);
      DecimalRoundTrip(-year);
      var s := "-" + digits;
      assert s[0] == '-' && s[1..] == digits;
      assert ParseYear(s) == Some(0 - DecimalValue(digits) as int);
    } else {
      var s := DecimalString(year);
      DecimalRoundTrip(year);
      assert s[0] != '-' by { assert IsDigit(s[0]); }
      assert ParseYear(s) == Some(DecimalValue(s));
    }
  }

  lemma {:induction false} FieldsRoundTrip(seps: seq<char>, values: seq<int>)
    requires |seps| == |values|
    requires forall i | 0 <= i < |values| :: 0 <= values[i] < 100
    ensures |Fields(seps, values)| == 3 * |seps|
    ensures DecodeFields(Fields(seps, values)) == Some((seps, values))
  {
    if seps != [] {
      var t := Fields(seps, values);
      PadTwoDigits(values[0]);
      FieldsRoundTrip(seps[1..], values[1..]);
      assert t[1..3] == Pad(values[0]);
      assert IsDigit(t[1]) && IsDigit(t[2]) by {
        assert t[1] == Pad(values[0])[0] && t[2] == Pad(values[0])[1];
      }
      assert t[3..] == Fields(seps[1..], values[1..]);
      assert [seps[0]] + seps[1..] == seps;
      assert [values[0]] + values[1..] == values;
    }
  }

  /**
   * Every valid local date-time is formatted so that it can be read back:
   * the year, then two digits per field, and the offset with its sign.
   */
  lemma LocalIsoDatetimeRoundTrip(d: LocalDateTime)
    requires ValidDateTime(d)
    ensures ParseLocalIsoDatetime(LocalIsoDatetime(d)) == Some(d)
  {
    var y, t := YearString(d.year), Fields(IsoSeparators(d), IsoValues(d));
    FieldsRoundTrip(IsoSeparators(d), IsoValues(d));
    YearRoundTrip(d.year);
    var s := y + t;
    assert s[..|s| - 21] == y && s[|s| - 21..] == t;
    ParseLocalIsoDatetimeAt(s, d);
  }

  /** The parser's reading of a string whose year and fields are in place. */
  lemma ParseLocalIsoDatetimeAt(s: string, d: LocalDateTime)
    requires ValidDateTime(d) && |s| >= 22
    requires ParseYear(s[..|s| - 21]) == Some(d.year)
    requires DecodeFields(s[|s| - 21..]) == Some((IsoSeparators(d), IsoValues(d)))
    ensures ParseLocalIsoDatetime(s) == Some(d)
  {
    assert Abs(Tzo(d)) / 60 * 60 + Abs(Tzo(d)) % 60 == Abs(Tzo(d));
  }

  // ---------------------------------------------------------------------------
  // Local storage with a time to live

  const MS_PER_HOUR := 3600000

  /** An item as stored: its value and the time, in milliseconds, after which it has expired. */
  datatype StoredItem = StoredItem(value: JsValue, expiry: int)

  /** The store after `setStorageItem(key, value, ttl)` at time `now`: the key's item replaced. */
  function Stored(items: map<string, StoredItem>, key: string, value: JsValue, ttl: int, now: int)
    : map<string, StoredItem>
  {
    items[key := StoredItem(value, now + ttl * MS_PER_HOUR)]
  }

  /**
   * `getStorageItem(key)` at time `now`: the value, and the store, from which
   * an expired item has been removed.
   */
  function Lookup(items: map<string, StoredItem>, key: string, now: int)
    : (Option<JsValue>, map<string, StoredItem>)
  {
    if key !in items then (None, items)
    else if now > items[key].expiry then (None, items - {key})
    else (Some(items[key].value), items)
  }

  /** `localStorage`, holding each item already parsed from its JSON text. */
  class LocalStorage {
    var items: map<string, StoredItem>

    constructor ()
      ensures items == map[]
    {
      items := map[];
    }

    /** `setStorageItem`: the item expires `ttl` hours after `now`. */
    method SetStorageItem(key: string, value: JsValue, ttl: int, now: int)
      modifies this
      ensures items == Stored(old(items), key, value, ttl, now)
    {
      var expiry := ttl * MS_PER_HOUR;
      items := items[key := StoredItem(value, now + expiry)];
    }

    /** `getStorageItem`: `null` for a missing or expired item, and an expired item is removed. */
    method GetStorageItem(key: string, now: int) returns (r: Option<JsValue>)
      modifies this
      ensures (r, items) == Lookup(old(items), key, now)
    {
      if key !in items {
        return None;
      }
      var item := items[key];
      if now > item.expiry {
        items := items - {key};
        return None;
      }
      r := Some(item.value);
    }
  }

  /**
   * A value stored at time `t` with a time to live of `ttl` hours is read
   * back until `t + ttl` hours; after that it reads as missing and its key,
   * and only its key, leaves the store.
   */
  lemma SetThenGet(items: map<string, StoredItem>, key: string, value: JsValue, ttl: int, t: int, n: int)
    ensures var stored := Stored(items, key, value, ttl, t);
      var (r, after) := Lookup(stored, key, n);
      && (n <= t + ttl * 3600000 ==> r == Some(value) && after == stored)
      && (n > t + ttl * 3600000 ==> r == None && after == items - {key})
  {
    var stored := Stored(items, key, value, ttl, t);
    if n > t + ttl * 3600000 {
      assert stored - {key} == items - {key};
    }
  }

  /** Storing under one key leaves what every other key reads, and how it expires, as it was. */
  lemma SetLeavesOtherKeys(items: map<string, StoredItem>, key: string, value: JsValue, ttl: int, t: int,
                           other: string, n: int)
    requires other != key
    ensures Lookup(Stored(items, key, value, ttl, t), other, n).0 == Lookup(items, other, n).0
    ensures Lookup(Stored(items, key, value, ttl, t), other, n).1
         == Stored(Lookup(items, other, n).1, key, value, ttl, t)
  {
    var stored := Stored(items, key, value, ttl, t);
    if other in items && n > items[other].expiry {
      assert stored - {other} == (items - {other})[key := StoredItem(value, t + ttl * MS_PER_HOUR)];
    }
  }

  /**
   * A read returns a value exactly when the key is present and not expired,
   * and it is the stored value; only the key read can leave the store.
   */
  lemma LookupResult(items: map<string, StoredItem>, key: string, now: int)
    ensures Lookup(items, key, now).0.Some?
        <==> key in items && now <= items[key].expiry
    ensures Lookup(items, key, now).0.Some? ==> Lookup(items, key, now).0.value == items[key].value
    ensures forall k | k != key :: k in Lookup(items, key, now).1 <==> k in items
    ensures forall k | k != key && k in items :: Lookup(items, key, now).1[k] == items[k]
  {
  }
}
