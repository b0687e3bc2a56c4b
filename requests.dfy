/**
  What a request builder hands to `call_api`, and the pure helpers the
  builders share: `transformation_string`, the repeated-key id encoding and
  `__prepare_streaming_profile_params`.
 */
module Requests {
  import opened Wrappers
  import opened Values
  import opened Errors
  import opened External
  import Text

  /** The HTTP verb, as `method.upper()` sends it whatever case the builder wrote it in. */
  datatype HttpMethod = GET | POST | PUT | DELETE

  /**
    The parameter set: a dict (unique keys, insertion order) or an ordered list
    of key/value pairs, which may repeat a key such as `public_ids[]`.
   */
  datatype Params = ParamDict(items: Entries) | ParamList(items: Entries)

  /** `call_api(method, uri, params, **options)` as a builder issues it. */
  datatype Call = Call(verb: HttpMethod, uri: seq<Value>, params: Params, options: Options)

  /**
    `transformation_string(t)`: a string is already a transformation string; a
    mapping is expanded by the transformation-string generator; anything else
    cannot be passed as `**` keyword arguments and raises TypeError.
   */
  function TransformationString(t: Value, c: Collaborators): (r: Result<string, Raised>)
    ensures t.Str? ==> r == Success(t.s)
    ensures t.Dict? ==> r == Success(c.generateTransformationString(t.fields))
    ensures !t.Str? && !t.Dict? ==> r.Failure? && r.error.cls == TypeError
  {
    match t
    case Str(s) => Success(s)
    case Dict(fields) => Success(c.generateTransformationString(fields))
    case _ => Failure(Raised(TypeError, "argument after ** must be a mapping"))
  }

  /** `sep.join(items)`: the items joined when every one is a string; otherwise `join` raises TypeError. */
  function PyJoin(sep: string, items: seq<Value>): (r: Result<string, Raised>)
    ensures r.Success? <==> forall i :: 0 <= i < |items| ==> items[i].Str?
    ensures r.Failure? ==> r.error.cls == TypeError
    ensures r.Success? ==> r.value == Text.Join(sep, Texts(items).value)
  {
    match Texts(items)
    case None => Failure(Raised(TypeError, "sequence item: expected str instance"))
    case Some(parts) => Success(Text.Join(sep, parts))
  }

  /** `[(name, id) for id in ids]`: one pair per id, in the order of `ids`. */
  function IdPairs(name: string, ids: seq<string>): (r: Entries)
    ensures |r| == |ids|
    ensures forall i :: 0 <= i < |ids| ==> r[i] == (name, Str(ids[i]))
  {
    if ids == [] then [] else [(name, Str(ids[0]))] + IdPairs(name, ids[1..])
  }

  /** `for x in v`: a list yields its items, a string its characters; other values are not iterated here. */
  function Iterate(v: Value): (r: Result<seq<Value>, Raised>)
    ensures v.List? ==> r == Success(v.items)
    ensures v.Str? ==> r.Success? && |r.value| == |v.s|
                       && forall i :: 0 <= i < |v.s| ==> r.value[i] == Str([v.s[i]])
    ensures !v.List? && !v.Str? ==> r.Failure? && r.error.cls == TypeError
  {
    match v
    case List(items) => Success(items)
    case Str(s) => Success(seq(|s|, i requires 0 <= i < |s| => Str([s[i]])))
    case _ => Failure(Raised(TypeError, "object is not iterable"))
  }

  /**
    `[{"transformation": transformation_string(t)} for t in items]`: one
    representation per item, in order; the first item that is not a
    transformation raises, and its error is the one raised.
   */
  function Representations(items: seq<Value>, c: Collaborators): (r: Result<seq<Value>, Raised>)
    ensures r.Success? <==> forall i :: 0 <= i < |items| ==> TransformationString(items[i], c).Success?
    ensures r.Success? ==> |r.value| == |items|
    ensures r.Success? ==> forall i :: 0 <= i < |items| ==>
              r.value[i] == Dict(map["transformation" := Str(TransformationString(items[i], c).value)])
    ensures r.Failure? ==>
              exists i :: 0 <= i < |items|
                && (forall j :: 0 <= j < i ==> TransformationString(items[j], c).Success?)
                && TransformationString(items[i], c).Failure?
                && r.error == TransformationString(items[i], c).error
  {
    if items == [] then Success([])
    else
      var t :- TransformationString(items[0], c);
      var rest :- Representations(items[1..], c);
      assert forall i :: 1 <= i < |items| ==> items[i] == items[1..][i - 1];
      Success([Dict(map["transformation" := Str(t)])] + rest)
  }

  /**
    `__prepare_streaming_profile_params(**options)`: the `display_name` option
    as given, and `representations` serialised to JSON when present; no other
    option is sent, and only building the representations can fail.
   */
  function StreamingProfileParams(options: Options, c: Collaborators): (r: Result<Entries, Raised>)
    ensures "representations" !in options ==> r == Success(Select(options, ["display_name"]))
    ensures r.Failure? <==> "representations" in options && RepresentationsJson(options["representations"], c).Failure?
    ensures r.Success? ==> UniqueKeys(r.value)
    ensures r.Success? ==> forall k :: k in KeysOf(r.value) <==> k in options && (k == "display_name" || k == "representations")
    ensures r.Success? && "display_name" in options ==> Find(r.value, "display_name") == Some(options["display_name"])
    ensures r.Success? && "representations" in options ==>
              Find(r.value, "representations") == Some(Str(RepresentationsJson(options["representations"], c).value))
  {
    var params := Only(options, ["display_name"]);
    if "representations" !in options then
      OnlyFollowsWhitelistOrder(options, ["display_name"]);
      Success(params)
    else
      match RepresentationsJson(options["representations"], c)
      case Failure(e) => Failure(e)
      case Success(json) =>
        ProfileEntries(options, json);
        Success(Assign(params, "representations", Str(json)))
  }

  /** The dict `__prepare_streaming_profile_params` returns once the representations are serialised. */
  lemma ProfileEntries(options: Options, json: string)
    requires "representations" in options
    ensures var e := Assign(Only(options, ["display_name"]), "representations", Str(json));
            && UniqueKeys(e)
            && (forall k :: k in KeysOf(e) <==> k in options && (k == "display_name" || k == "representations"))
            && ("display_name" in options ==> Find(e, "display_name") == Some(options["display_name"]))
            && Find(e, "representations") == Some(Str(json))
  {
    var params := Only(options, ["display_name"]);
    assert "representations" !in KeysOf(params);
  }

  /** `json.dumps([...])` of the `representations` option, or the error building the list raises. */
  function RepresentationsJson(v: Value, c: Collaborators): (r: Result<string, Raised>)
    ensures r.Success? <==> Iterate(v).Success? && Representations(Iterate(v).value, c).Success?
    ensures r.Success? ==> r.value == c.jsonDumps(List(Representations(Iterate(v).value, c).value))
  {
    var items :- Iterate(v);
    var reps :- Representations(items, c);
    Success(c.jsonDumps(List(reps)))
  }
}
