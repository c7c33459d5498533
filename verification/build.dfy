/**
 * The `build` command's parameter handling: parsing `--params key=value,...`,
 * turning job parameters into interactive questions, and choosing between the two.
 */
module Build {
  import opened Wrappers
  import opened Strings
  import opened Seqs
  import Formatters

  // ---------------------------------------------------------------------------
  // `--params` parsing

  /** A parsed parameter value: `true`/`false` become booleans, anything else a trimmed string. */
  datatype ParamValue = BoolValue(b: bool) | StrValue(s: string)

  /** The boolean test on the untrimmed value, then the trimmed string. */
  function Coerce(value: string): (r: ParamValue)
    ensures r.BoolValue? <==> ToLower(value) == "true" || ToLower(value) == "false"
    ensures r.BoolValue? ==> (r.b <==> ToLower(value) == "true")
    ensures r.StrValue? ==> r.s == Trim(value)
  {
    if ToLower(value) == "true" then BoolValue(true)
    else if ToLower(value) == "false" then BoolValue(false)
    else StrValue(Trim(value))
  }

  /**
   * One `key=value` piece: split at the first `=` with the rest kept whole, skipped when the key
   * part is empty, otherwise the trimmed key and the coerced value.
   */
  function PairEntry(pair: string): (r: Option<(string, ParamValue)>)
    ensures r.None? <==> Split(pair, '=')[0] == ""
  {
    var parts := Split(pair, '=');
    var key := parts[0];
    var value := Join(parts[1..], '=');
    if key == "" then None else Some((Trim(key), Coerce(value)))
  }

  /**
   * The dictionary after the items in order, each read by `entry`; an item read as `None` is
   * skipped and a later item overwrites an earlier one with the same key.
   */
  function Collect<T, K, V>(items: seq<T>, entry: T -> Option<(K, V)>): map<K, V>
    decreases |items|
  {
    if items == [] then map[]
    else
      var before := Collect(items[..|items| - 1], entry);
      match entry(items[|items| - 1])
      case None => before
      case Some(e) => before[e.0 := e.1]
  }

  /** `parseCliParams`, as a function of its input. */
  function ParamsOf(paramsString: string): map<string, ParamValue> {
    Collect(Split(paramsString, ','), PairEntry)
  }

  /** `parseCliParams`: the loop over the comma-separated pieces. */
  method ParseCliParams(paramsString: string) returns (params: map<string, ParamValue>)
    ensures params == ParamsOf(paramsString)
  {
    params := map[];
    var pairs := Split(paramsString, ',');
    for i := 0 to |pairs|
      invariant params == Collect(pairs[..i], PairEntry)
    {
      var parts := Split(pairs[i], '=');
      var key := parts[0];
      var value := Join(parts[1..], '=');
      assert pairs[..i + 1][..i] == pairs[..i];
      if key != "" {
        if ToLower(value) == "true" {
          params := params[Trim(key) := BoolValue(true)];
        } else if ToLower(value) == "false" {
          params := params[Trim(key) := BoolValue(false)];
        } else {
          params := params[Trim(key) := StrValue(Trim(value))];
        }
      }
    }
    assert pairs[..|pairs|] == pairs;
  }

  /** A piece with `=` splits at its first `=`; the value keeps any further `=`. */
  lemma PairAtFirstEquals(key: string, value: string)
    requires key != "" && '=' !in key
    ensures PairEntry(key + "=" + value) == Some((Trim(key), Coerce(value)))
  {
    SplitPrepend(key, '=', value);
    SplitJoin(value, '=');
    var parts := Split(key + "=" + value, '=');
    assert parts[1..] == Split(value, '=');
  }

  /** A piece without `=` stores the empty string under its trimmed self. */
  lemma PairWithoutEquals(key: string)
    requires key != "" && '=' !in key
    ensures PairEntry(key) == Some((Trim(key), StrValue("")))
  {
    SplitNoSep(key, '=');
    assert Split(key, '=')[1..] == [];
    assert ToLower("") == "";
    assert TrimStart("") == "";
  }

  /** The item `x` sets the key `k`. */
  predicate SetsKey<T, K(==), V>(x: T, entry: T -> Option<(K, V)>, k: K) {
    entry(x).Some? && entry(x).value.0 == k
  }

  /** The keys are the keys of the items that were not skipped. */
  lemma {:induction false} CollectKeys<T, K, V>(items: seq<T>, entry: T -> Option<(K, V)>, k: K)
    ensures k in Collect(items, entry) <==> exists i :: 0 <= i < |items| && SetsKey(items[i], entry, k)
    decreases |items|
  {
    if items != [] {
      var init := items[..|items| - 1];
      CollectKeys(init, entry, k);
      if !SetsKey(items[|items| - 1], entry, k) {
        if exists i :: 0 <= i < |init| && SetsKey(init[i], entry, k) {
          var i :| 0 <= i < |init| && SetsKey(init[i], entry, k);
          assert items[i] == init[i];
        }
        if exists i :: 0 <= i < |items| && SetsKey(items[i], entry, k) {
          var i :| 0 <= i < |items| && SetsKey(items[i], entry, k);
          assert init[i] == items[i];
        }
      }
    }
  }

  /** The last occurrence wins: a key's value comes from the last item that sets it. */
  lemma {:induction false} LastOccurrenceWins<T, K, V>(items: seq<T>, entry: T -> Option<(K, V)>, i: nat, k: K, v: V)
    requires i < |items| && entry(items[i]) == Some((k, v))
    requires forall j :: i < j < |items| ==> !SetsKey(items[j], entry, k)
    ensures k in Collect(items, entry) && Collect(items, entry)[k] == v
    decreases |items|
  {
    var init := items[..|items| - 1];
    if i < |items| - 1 {
      forall j | i < j < |init|
        ensures !SetsKey(init[j], entry, k)
      {
        assert init[j] == items[j];
      }
      LastOccurrenceWins(init, entry, i, k, v);
    }
  }

  /** The boolean test sees the untrimmed value: a value with leading white space stays a string. */
  lemma PaddedIsText(value: string)
    requires |value| > 0 && IsWhitespace(value[0])
    ensures Coerce(value) == StrValue(Trim(value))
  {
    assert ToLower(value)[0] == value[0];
  }

  /** A word after one space stays the word itself, as a string. */
  lemma PaddedWordIsText(word: string)
    requires word != [] && !IsWhitespace(word[0]) && !IsWhitespace(word[|word| - 1])
    ensures Coerce(" " + word) == StrValue(word)
  {
    var value := " " + word;
    PaddedIsText(value);
    assert value[1..] == word;
    assert TrimStart(value) == TrimStart(word);
    TrimNoOp(word);
  }

  /** So ` true` is the string `true`, not the boolean. */
  lemma PaddedTrueIsText()
    ensures Coerce(" true") == StrValue("true")
  {
    PaddedWordIsText("true");
    assert " " + "true" == " true";
  }

  /** The boolean test ignores case. */
  lemma UpperCaseTrue()
    ensures Coerce("TRUE") == BoolValue(true)
  {
    assert ToLower("TRUE") == "true";
  }

  // ---------------------------------------------------------------------------
  // Interactive questions

  /** A job parameter as the server describes it. */
  datatype Parameter = Parameter(
    name: string, paramType: string, description: Option<string>,
    defaultValue: Formatters.Scalar, choices: Option<seq<string>>)

  /** The inquirer prompt kinds. */
  datatype PromptKind = Confirm | ListPrompt(choices: seq<string>) | Password | Editor | Input

  datatype Question = Question(name: string, message: string, default: Formatters.Scalar, kind: PromptKind)

  /** The `switch (param.type)`. */
  function PromptKindOf(paramType: string, choices: Option<seq<string>>): (r: PromptKind)
    ensures r == Confirm <==> paramType == "boolean"
    ensures r.ListPrompt? <==> paramType == "choice"
    ensures r.ListPrompt? ==> r.choices == choices.GetOr([])
    ensures r == Password <==> paramType == "password"
    ensures r == Editor <==> paramType == "text"
    ensures r == Input <==> paramType !in ["boolean", "choice", "password", "text"]
  {
    match paramType
    case "boolean" => Confirm
    case "choice" => ListPrompt(choices.GetOr([]))
    case "password" => Password
    case "text" => Editor
    case _ => Input
  }

  /** The question for one parameter: the description as message, or the name when it is empty. */
  function QuestionFor(p: Parameter): (q: Question)
    ensures q.name == p.name && q.default == p.defaultValue
    ensures q.message == (if Truthy(p.description) then p.description.value else p.name)
  {
    Question(p.name,
      if Truthy(p.description) then p.description.value else p.name,
      p.defaultValue, PromptKindOf(p.paramType, p.choices))
  }

  /** `promptForParameters`: one question per parameter, in order. */
  function Questions(parameters: seq<Parameter>): (qs: seq<Question>)
    ensures |qs| == |parameters|
    ensures forall i :: 0 <= i < |qs| ==> qs[i].name == parameters[i].name
    ensures forall i :: 0 <= i < |qs| ==> qs[i].kind == PromptKindOf(parameters[i].paramType, parameters[i].choices)
    ensures forall i :: 0 <= i < |qs| ==> qs[i] == QuestionFor(parameters[i])
  {
    Map(parameters, QuestionFor)
  }

  // ---------------------------------------------------------------------------
  // Where the build parameters come from

  /** What `build` does before asking for confirmation. */
  datatype BuildPlan =
    | NotBuildable
    | WithoutParameters
    | FromCli(params: map<string, ParamValue>)
    | Ask(questions: seq<Question>)

  /**
   * A job that cannot be built stops the command; a job without parameters builds with `{}`
   * whatever `--params` says; otherwise a non-empty `--params` is used instead of asking.
   */
  function PlanBuild(buildable: bool, parameters: seq<Parameter>, cliParams: Option<string>): (r: BuildPlan)
    ensures r.NotBuildable? <==> !buildable
    ensures r.WithoutParameters? <==> buildable && parameters == []
    ensures r.FromCli? <==> buildable && parameters != [] && Truthy(cliParams)
    ensures r.FromCli? ==> r.params == ParamsOf(cliParams.value)
    ensures r.Ask? ==> |r.questions| == |parameters|
    ensures r.Ask? ==> r.questions == Questions(parameters)
  {
    if !buildable then NotBuildable
    else if |parameters| == 0 then WithoutParameters
    else if Truthy(cliParams) then FromCli(ParamsOf(cliParams.value))
    else Ask(Questions(parameters))
  }
}
