/**
  The request builders of cloudinary/api.py, one per remote operation. Each
  pops the options it consumes, assembles the URI segments and the parameter
  set, and hands both, with the remaining options, to `call_api`; the result
  here is that `Call`. The options dict is local to each call, so its in-place
  pops are threaded through as values.
 */
module Operations {
  import opened Wrappers
  import opened Values
  import opened Errors
  import opened External
  import opened Requests
  import Text

  const Image := Str("image")
  const Upload := Str("upload")

  /** A whitelist passed to `only`: it names each option once. */
  type Whitelist = keys: seq<string> | Distinct(keys) witness []

  /** The whitelists of the builders, in the order the source lists them. */
  const ResourcesKeys: Whitelist :=
    ["next_cursor", "max_results", "prefix", "tags", "context", "moderations", "direction", "start_at"]
  const ListingKeys: Whitelist := ["next_cursor", "max_results", "tags", "context", "moderations", "direction"]
  const ByIdsKeys: Whitelist := ["tags", "moderations", "context"]
  const ResourceKeys: Whitelist :=
    ["exif", "faces", "colors", "image_metadata", "pages", "phash", "coordinates", "max_results"]
  const UpdateKeys: Whitelist :=
    ["moderation_status", "raw_convert", "ocr", "categorization", "detection", "similarity_search", "background_removal"]
  /** The options `update` sends encoded rather than as given, in the order it adds them. */
  const UpdateEncodedKeys: Whitelist := ["tags", "face_coordinates", "custom_coordinates", "context", "auto_tagging"]
  const DeleteKeys: Whitelist := ["keep_original", "next_cursor", "invalidate"]
  const TagsKeys: Whitelist := ["next_cursor", "max_results", "prefix"]
  const PageKeys: Whitelist := ["next_cursor", "max_results"]
  const UpdatePresetKeys: Whitelist := ["unsigned", "disallow_public_id"]
  const CreatePresetKeys: Whitelist := ["unsigned", "disallow_public_id", "name"]

  /** `options.pop("resource_type", "image")` then `options.pop("type", typeDefault)`. */
  function PopTypes(options: Options, typeDefault: Value): (r: (Value, Value, Options))
    ensures r.0 == Get(options, "resource_type", Image) && r.1 == Get(options, "type", typeDefault)
    ensures r.2 == options - {"resource_type", "type"}
  {
    var (resourceType, rest) := Pop(options, "resource_type", Image);
    var (uploadType, rest) := Pop(rest, "type", typeDefault);
    assert rest == options - {"resource_type", "type"};
    (resourceType, uploadType, rest)
  }

  // ---- account and listing -------------------------------------------------

  /** `ping(**options)` */
  function Ping(options: Options): (r: Call)
    ensures r.verb == GET && r.uri == [Str("ping")]
    ensures r.params == ParamDict([]) && r.options == options
  {
    Call(GET, [Str("ping")], ParamDict([]), options)
  }

  /** `usage(**options)` */
  function Usage(options: Options): (r: Call)
    ensures r.verb == GET && r.uri == [Str("usage")]
    ensures r.params == ParamDict([]) && r.options == options
  {
    Call(GET, [Str("usage")], ParamDict([]), options)
  }

  /** `resource_types(**options)` */
  function ResourceTypes(options: Options): (r: Call)
    ensures r.verb == GET && r.uri == [Str("resources")]
    ensures r.params == ParamDict([]) && r.options == options
  {
    Call(GET, [Str("resources")], ParamDict([]), options)
  }

  /**
    `resources(**options)`: the resource type defaults to "image"; the upload
    type is a segment only when a truthy one is given.
   */
  function Resources(options: Options): (r: Call)
    ensures r.verb == GET
    ensures r.uri == [Str("resources"), Get(options, "resource_type", Image)]
                     + (if Truthy(Get(options, "type", Null)) then [Get(options, "type", Null)] else [])
    ensures r.params == ParamDict(Select(options, ResourcesKeys))
    ensures r.options == options - {"resource_type", "type"}
  {
    var (resourceType, uploadType, rest) := PopTypes(options, Null);
    var uri := [Str("resources"), resourceType] + (if Truthy(uploadType) then [uploadType] else []);
    OnlyAfterPop(options, {"resource_type", "type"}, ResourcesKeys);
    Call(GET, uri, ParamDict(Only(rest, ResourcesKeys)), rest)
  }

  /** `resources_by_tag(tag, **options)` */
  function ResourcesByTag(tag: string, options: Options): (r: Call)
    ensures r.verb == GET
    ensures r.uri == [Str("resources"), Get(options, "resource_type", Image), Str("tags"), Str(tag)]
    ensures r.params == ParamDict(Select(options, ListingKeys))
    ensures r.options == options - {"resource_type"}
  {
    var (resourceType, rest) := Pop(options, "resource_type", Image);
    OnlyAfterPop(options, {"resource_type"}, ListingKeys);
    Call(GET, [Str("resources"), resourceType, Str("tags"), Str(tag)], ParamDict(Only(rest, ListingKeys)), rest)
  }

  /** `resources_by_moderation(kind, status, **options)` */
  function ResourcesByModeration(kind: string, status: string, options: Options): (r: Call)
    ensures r.verb == GET
    ensures r.uri == [Str("resources"), Get(options, "resource_type", Image), Str("moderations"), Str(kind), Str(status)]
    ensures r.params == ParamDict(Select(options, ListingKeys))
    ensures r.options == options - {"resource_type"}
  {
    var (resourceType, rest) := Pop(options, "resource_type", Image);
    OnlyAfterPop(options, {"resource_type"}, ListingKeys);
    Call(GET, [Str("resources"), resourceType, Str("moderations"), Str(kind), Str(status)],
         ParamDict(Only(rest, ListingKeys)), rest)
  }

  /**
    `resources_by_ids(public_ids, **options)`: one `public_ids[]` pair per id,
    in input order, then the whitelisted options in whitelist order.
   */
  function ResourcesByIds(publicIds: seq<string>, options: Options): (r: Call)
    ensures r.verb == GET
    ensures r.uri == [Str("resources"), Get(options, "resource_type", Image), Get(options, "type", Upload)]
    ensures r.params.ParamList? && |r.params.items| >= |publicIds|
    ensures forall i :: 0 <= i < |publicIds| ==> r.params.items[i] == ("public_ids[]", Str(publicIds[i]))
    ensures r.params.items[|publicIds|..] == Select(options, ByIdsKeys)
    ensures r.options == options - {"resource_type", "type"}
  {
    var (resourceType, uploadType, rest) := PopTypes(options, Upload);
    var ids := IdPairs("public_ids[]", publicIds);
    OnlyAfterPop(options, {"resource_type", "type"}, ByIdsKeys);
    var pairs := ids + Only(rest, ByIdsKeys);
    assert pairs[|publicIds|..] == Only(rest, ByIdsKeys);
    Call(GET, [Str("resources"), resourceType, uploadType], ParamList(pairs), rest)
  }

  /** `resource(public_id, **options)` */
  function Resource(publicId: string, options: Options): (r: Call)
    ensures r.verb == GET
    ensures r.uri == [Str("resources"), Get(options, "resource_type", Image), Get(options, "type", Upload), Str(publicId)]
    ensures r.params == ParamDict(Select(options, ResourceKeys))
    ensures r.options == options - {"resource_type", "type"}
  {
    var (resourceType, uploadType, rest) := PopTypes(options, Upload);
    OnlyAfterPop(options, {"resource_type", "type"}, ResourceKeys);
    Call(GET, [Str("resources"), resourceType, uploadType, Str(publicId)], ParamDict(Only(rest, ResourceKeys)), rest)
  }

  // ---- updating and deleting resources ---------------------------------------

  /** An option `update` sends encoded: its name, and the encoder applied to its value, which may raise. */
  datatype Encoding = Encoding(key: string, encode: Value -> Result<Value, Raised>)

  function EncodingKeys(steps: seq<Encoding>): seq<string> {
    seq(|steps|, i requires 0 <= i < |steps| => steps[i].key)
  }

  lemma EncodingKeysCons(steps: seq<Encoding>)
    requires steps != []
    ensures EncodingKeys(steps) == [steps[0].key] + EncodingKeys(steps[1..])
    ensures Distinct(EncodingKeys(steps)) ==>
              steps[0].key !in EncodingKeys(steps[1..]) && Distinct(EncodingKeys(steps[1..]))
  {
    var a, b := EncodingKeys(steps), EncodingKeys(steps[1..]);
    assert a[1..] == b;
    if Distinct(a) {
      forall j | 0 <= j < |b| ensures b[j] != a[0] {
        assert a[j + 1] == b[j];
      }
    }
  }

  /** The option of `step` is given and its encoder raises on it. */
  predicate Raises(options: Options, step: Encoding) {
    step.key in options && step.encode(options[step.key]).Failure?
  }

  /** `",".join(utils.build_array(tags))` */
  function TagsEncoded(tags: Value, c: Collaborators): Result<Value, Raised> {
    var text :- PyJoin(",", c.buildArray(tags));
    Success(Str(text))
  }

  /**
    The options `update` sends encoded, in the order it adds them: tags as a
    comma-separated list, the coordinates as double arrays, the context as an
    encoded dict and auto-tagging as its `str`. Only the join of the tags can
    raise.
   */
  function UpdateEncodings(c: Collaborators): (steps: seq<Encoding>)
    ensures EncodingKeys(steps) == UpdateEncodedKeys
  {
    [ Encoding("tags", v => TagsEncoded(v, c)),
      Encoding("face_coordinates", v => Success(Str(c.encodeDoubleArray(v)))),
      Encoding("custom_coordinates", v => Success(Str(c.encodeDoubleArray(v)))),
      Encoding("context", v => Success(Str(c.encodeDict(v)))),
      Encoding("auto_tagging", v => Success(Str(PyStr(v, c)))) ]
  }

  /**
    `if key in options: params[key] = encode(options[key])`, for each encoding
    in turn; the first encoder that raises ends the sequence.
   */
  function AddEncoded(params: Entries, options: Options, steps: seq<Encoding>): Result<Entries, Raised>
    decreases |steps|
  {
    if steps == [] then Success(params)
    else
      var key := steps[0].key;
      if key !in options then AddEncoded(params, options, steps[1..])
      else
        var value :- steps[0].encode(options[key]);
        AddEncoded(Assign(params, key, value), options, steps[1..])
  }

  /** The entry an encoding contributes: none when its option is not given, or the error its encoder raises. */
  function GivenEntry(options: Options, step: Encoding): (g: Result<Entries, Raised>)
    ensures g.Failure? <==> Raises(options, step)
    ensures g.Failure? ==> g.error == step.encode(options[step.key]).error
    ensures g.Success? ==> KeysOf(g.value) == if step.key in options then [step.key] else []
    ensures g.Success? && step.key in options ==> g.value == [(step.key, step.encode(options[step.key]).value)]
  {
    if step.key !in options then Success([])
    else
      var value :- step.encode(options[step.key]);
      Success([(step.key, value)])
  }

  /** The reference description: one entry per given option, in encoding order, unless an encoder raises. */
  function Encoded(options: Options, steps: seq<Encoding>): (e: Result<Entries, Raised>)
    ensures e.Success? ==> forall k :: k in KeysOf(e.value) <==> k in options && k in EncodingKeys(steps)
    ensures e.Success? && Distinct(EncodingKeys(steps)) ==> UniqueKeys(e.value)
    decreases |steps|
  {
    if steps == [] then Success([])
    else
      var head :- GivenEntry(options, steps[0]);
      var rest :- Encoded(options, steps[1..]);
      EncodingKeysCons(steps);
      KeysOfAppend(head, rest);
      Success(head + rest)
  }

  /** The encoded entries are built exactly when no given option's encoder raises. */
  lemma {:induction false} EncodedSucceeds(options: Options, steps: seq<Encoding>)
    ensures Encoded(options, steps).Success? <==> forall i :: 0 <= i < |steps| ==> !Raises(options, steps[i])
    decreases |steps|
  {
    if steps != [] {
      EncodedSucceeds(options, steps[1..]);
      assert forall i :: 1 <= i < |steps| ==> steps[i] == steps[1..][i - 1];
    }
  }

  /** What is raised is the error of the first given option whose encoder raises. */
  lemma {:induction false} EncodedRaisesFirst(options: Options, steps: seq<Encoding>, i: nat)
    requires i < |steps| && Raises(options, steps[i])
    requires forall j :: 0 <= j < i ==> !Raises(options, steps[j])
    ensures Encoded(options, steps) == Failure(steps[i].encode(options[steps[i].key]).error)
    decreases i
  {
    if i > 0 {
      assert !Raises(options, steps[0]);
      assert steps[1..][i - 1] == steps[i];
      assert forall j :: 0 <= j < i - 1 ==> steps[1..][j] == steps[j + 1];
      EncodedRaisesFirst(options, steps[1..], i - 1);
    }
  }

  /** The first encoding, when it does not raise, appends its entry and leaves the other encoded options absent. */
  function AddedFirst(params: Entries, options: Options, steps: seq<Encoding>): (next: Entries)
    requires steps != [] && Distinct(EncodingKeys(steps)) && !Raises(options, steps[0])
    requires forall k :: k in EncodingKeys(steps) ==> k !in KeysOf(params)
    ensures next == params + GivenEntry(options, steps[0]).value
    ensures Distinct(EncodingKeys(steps[1..]))
    ensures forall k :: k in EncodingKeys(steps[1..]) ==> k !in KeysOf(next)
    ensures AddEncoded(params, options, steps) == AddEncoded(next, options, steps[1..])
  {
    var key := steps[0].key;
    EncodingKeysCons(steps);
    assert key in EncodingKeys(steps);
    KeysOfAppend(params, GivenEntry(options, steps[0]).value);
    if key in options then Assign(params, key, steps[0].encode(options[key]).value) else params
  }

  /**
    Each encoded option is added to a dict that holds none of them yet, so the
    encoded options land at the end, after what was there, in encoding order;
    and the steps raise exactly what the reference raises.
   */
  lemma {:induction false} AddEncodedAppends(params: Entries, options: Options, steps: seq<Encoding>)
    requires Distinct(EncodingKeys(steps))
    requires forall k :: k in EncodingKeys(steps) ==> k !in KeysOf(params)
    ensures AddEncoded(params, options, steps).Success? <==> Encoded(options, steps).Success?
    ensures AddEncoded(params, options, steps).Failure? ==>
              AddEncoded(params, options, steps).error == Encoded(options, steps).error
    ensures AddEncoded(params, options, steps).Success? ==>
              AddEncoded(params, options, steps).value == params + Encoded(options, steps).value
    decreases |steps|
  {
    if steps != [] && !Raises(options, steps[0]) {
      var head := GivenEntry(options, steps[0]).value;
      var next := AddedFirst(params, options, steps);
      var rest := Encoded(options, steps[1..]);
      AddEncodedAppends(next, options, steps[1..]);
      if rest.Success? {
        assert Encoded(options, steps) == Success(head + rest.value);
        AppendAssociative(params, head, rest.value);
      }
    }
  }

  /** The encoded entry for a given option holds its encoded value. */
  lemma {:induction false} EncodedFind(options: Options, steps: seq<Encoding>, i: nat)
    requires Distinct(EncodingKeys(steps))
    requires i < |steps| && steps[i].key in options
    requires Encoded(options, steps).Success?
    ensures steps[i].encode(options[steps[i].key]).Success?
    ensures Find(Encoded(options, steps).value, steps[i].key) == Some(steps[i].encode(options[steps[i].key]).value)
    decreases |steps|
  {
    var k := steps[i].key;
    var head := GivenEntry(options, steps[0]).value;
    var rest := Encoded(options, steps[1..]).value;
    assert Encoded(options, steps).value == head + rest;
    FindAppend(head, rest, k);
    if i == 0 {
      assert head == [(k, steps[0].encode(options[k]).value)];
    } else {
      EncodingKeysCons(steps);
      assert steps[0].key != k by { assert EncodingKeys(steps)[0] != EncodingKeys(steps)[i]; }
      assert steps[1..][i - 1] == steps[i];
      EncodedFind(options, steps[1..], i - 1);
    }
  }

  /** No option `update` encodes is also one it sends as given. */
  lemma EncodedKeysAreNotWhitelisted()
    ensures forall k :: k in UpdateEncodedKeys ==> k !in UpdateKeys
  {
  }

  /**
    The parameters of `update`: the whitelisted options as given, in whitelist
    order, followed by the encoded ones in encoding order; or what an encoder
    raises.
   */
  function UpdateParams(options: Options, c: Collaborators): (p: Result<Entries, Raised>)
    ensures p.Success? <==> Encoded(options, UpdateEncodings(c)).Success?
    ensures p.Failure? ==> p.error == Encoded(options, UpdateEncodings(c)).error
    ensures p.Success? ==> p.value == Select(options, UpdateKeys) + Encoded(options, UpdateEncodings(c)).value
  {
    var steps := UpdateEncodings(c);
    var p0 := Only(options, UpdateKeys);
    OnlyFollowsWhitelistOrder(options, UpdateKeys);
    assert Distinct(EncodingKeys(steps));
    EncodedKeysAreNotWhitelisted();
    AddEncodedAppends(p0, options, steps);
    AddEncoded(p0, options, steps)
  }

  /**
    `update` raises exactly when tags are given and `build_array` yields an
    item that is not a string; what it raises is the TypeError of the join.
   */
  lemma UpdateParamsRaises(options: Options, c: Collaborators)
    ensures UpdateParams(options, c).Failure? <==>
              "tags" in options && PyJoin(",", c.buildArray(options["tags"])).Failure?
    ensures UpdateParams(options, c).Failure? ==>
              UpdateParams(options, c).error == PyJoin(",", c.buildArray(options["tags"])).error
              && UpdateParams(options, c).error.cls == TypeError
  {
    var steps := UpdateEncodings(c);
    EncodedSucceeds(options, steps);
    OnlyTagsRaise(options, c);
    if Raises(options, steps[0]) {
      EncodedRaisesFirst(options, steps, 0);
    } else {
      assert forall i :: 0 <= i < |steps| ==> !Raises(options, steps[i]);
    }
  }

  /** Of the encoders of `update`, only the one for tags can raise, and it raises what the join raises. */
  lemma OnlyTagsRaise(options: Options, c: Collaborators)
    ensures forall i :: 1 <= i < |UpdateEncodings(c)| ==> !Raises(options, UpdateEncodings(c)[i])
    ensures Raises(options, UpdateEncodings(c)[0]) <==>
              "tags" in options && PyJoin(",", c.buildArray(options["tags"])).Failure?
    ensures Raises(options, UpdateEncodings(c)[0]) ==>
              UpdateEncodings(c)[0].encode(options["tags"]).error == PyJoin(",", c.buildArray(options["tags"])).error
  {
  }

  /** What `update` sends: each whitelisted or encoded option that is given, once. */
  lemma UpdateParamsKeys(options: Options, c: Collaborators)
    ensures UpdateParams(options, c).Success? ==> UniqueKeys(UpdateParams(options, c).value)
    ensures UpdateParams(options, c).Success? ==>
              forall k :: k in KeysOf(UpdateParams(options, c).value) <==>
                            k in options && (k in UpdateKeys || k in UpdateEncodedKeys)
  {
    var steps := UpdateEncodings(c);
    var enc := Encoded(options, steps);
    if enc.Success? {
      var sel := Select(options, UpdateKeys);
      assert Distinct(EncodingKeys(steps));
      EncodedKeysAreNotWhitelisted();
      KeysOfAppend(sel, enc.value);
      UniqueKeysAppend(sel, enc.value);
    }
  }

  /** The whitelisted options `update` sends as given. */
  lemma UpdateParamsVerbatim(options: Options, c: Collaborators, k: string)
    requires k in UpdateKeys && k in options
    ensures UpdateParams(options, c).Success? ==> Find(UpdateParams(options, c).value, k) == Some(options[k])
  {
    var enc := Encoded(options, UpdateEncodings(c));
    if enc.Success? {
      var sel := Select(options, UpdateKeys);
      FindAppend(sel, enc.value, k);
      assert (k, Find(sel, k).value) in sel;
    }
  }

  /** The `i`-th encoded option, when given, is sent through its encoder. */
  lemma UpdateParamsEncodes(options: Options, steps: seq<Encoding>, c: Collaborators, i: nat)
    requires steps == UpdateEncodings(c)
    requires i < |steps|
    ensures steps[i].key in options && UpdateParams(options, c).Success? ==>
              && steps[i].encode(options[steps[i].key]).Success?
              && Find(UpdateParams(options, c).value, steps[i].key) == Some(steps[i].encode(options[steps[i].key]).value)
  {
    if steps[i].key in options && UpdateParams(options, c).Success? {
      UpdateParamsEncodesGiven(options, steps, c, i);
    }
  }

  lemma UpdateParamsEncodesGiven(options: Options, steps: seq<Encoding>, c: Collaborators, i: nat)
    requires steps == UpdateEncodings(c)
    requires i < |steps| && steps[i].key in options && UpdateParams(options, c).Success?
    ensures steps[i].encode(options[steps[i].key]).Success?
    ensures Find(UpdateParams(options, c).value, steps[i].key) == Some(steps[i].encode(options[steps[i].key]).value)
  {
    var sel, enc := Select(options, UpdateKeys), Encoded(options, steps).value;
    assert steps[i].key == UpdateEncodedKeys[i];
    EncodedKeysAreNotWhitelisted();
    FindAppend(sel, enc, steps[i].key);
    EncodedFind(options, steps, i);
  }

  /** What each encoder of `update` yields on the value given for its option. */
  lemma UpdateEncoders(options: Options, c: Collaborators)
    ensures "tags" in options && UpdateEncodings(c)[0].encode(options["tags"]).Success? ==>
              UpdateEncodings(c)[0].encode(options["tags"]).value == Str(Text.Join(",", Texts(c.buildArray(options["tags"])).value))
    ensures "face_coordinates" in options ==>
              UpdateEncodings(c)[1].encode(options["face_coordinates"]) == Success(Str(c.encodeDoubleArray(options["face_coordinates"])))
    ensures "custom_coordinates" in options ==>
              UpdateEncodings(c)[2].encode(options["custom_coordinates"]) == Success(Str(c.encodeDoubleArray(options["custom_coordinates"])))
    ensures "context" in options ==>
              UpdateEncodings(c)[3].encode(options["context"]) == Success(Str(c.encodeDict(options["context"])))
    ensures "auto_tagging" in options ==>
              UpdateEncodings(c)[4].encode(options["auto_tagging"]) == Success(Str(PyStr(options["auto_tagging"], c)))
  {
  }

  /** The encoded options `update` sends through their encoders, when it does not raise. */
  lemma UpdateParamsEncoded(options: Options, c: Collaborators)
    ensures "tags" in options && UpdateParams(options, c).Success? ==>
              Find(UpdateParams(options, c).value, "tags")
              == Some(Str(Text.Join(",", Texts(c.buildArray(options["tags"])).value)))
    ensures "face_coordinates" in options && UpdateParams(options, c).Success? ==>
              Find(UpdateParams(options, c).value, "face_coordinates")
              == Some(Str(c.encodeDoubleArray(options["face_coordinates"])))
    ensures "custom_coordinates" in options && UpdateParams(options, c).Success? ==>
              Find(UpdateParams(options, c).value, "custom_coordinates")
              == Some(Str(c.encodeDoubleArray(options["custom_coordinates"])))
    ensures "context" in options && UpdateParams(options, c).Success? ==>
              Find(UpdateParams(options, c).value, "context") == Some(Str(c.encodeDict(options["context"])))
    ensures "auto_tagging" in options && UpdateParams(options, c).Success? ==>
              Find(UpdateParams(options, c).value, "auto_tagging") == Some(Str(PyStr(options["auto_tagging"], c)))
  {
    var steps := UpdateEncodings(c);
    UpdateEncoders(options, c);
    UpdateParamsEncodes(options, steps, c, 0);
    UpdateParamsEncodes(options, steps, c, 1);
    UpdateParamsEncodes(options, steps, c, 2);
    UpdateParamsEncodes(options, steps, c, 3);
    UpdateParamsEncodes(options, steps, c, 4);
  }

  /**
    `update(public_id, **options)`: raises the TypeError of joining the tags
    when an item of `build_array`'s result is not a string, and otherwise
    posts the `update` parameters.
   */
  function Update(publicId: string, options: Options, c: Collaborators): (r: Result<Call, Raised>)
    ensures r.Failure? <==> "tags" in options && PyJoin(",", c.buildArray(options["tags"])).Failure?
    ensures r.Failure? ==> r.error.cls == TypeError && r.error == PyJoin(",", c.buildArray(options["tags"])).error
    ensures r.Success? ==>
              && r.value.verb == POST
              && r.value.uri == [Str("resources"), Get(options, "resource_type", Image), Get(options, "type", Upload), Str(publicId)]
              && r.value.options == options - {"resource_type", "type"}
              && UpdateParams(options - {"resource_type", "type"}, c).Success?
              && r.value.params == ParamDict(UpdateParams(options - {"resource_type", "type"}, c).value)
  {
    var (resourceType, uploadType, rest) := PopTypes(options, Upload);
    UpdateParamsRaises(rest, c);
    assert ("tags" in rest <==> "tags" in options) && ("tags" in rest ==> rest["tags"] == options["tags"]);
    var params :- UpdateParams(rest, c);
    Success(Call(POST, [Str("resources"), resourceType, uploadType, Str(publicId)], ParamDict(params), rest))
  }

  /** Popping the URI options does not change what `update` sends first: the whitelisted options as given. */
  lemma UpdateSendsWhitelistFirst(options: Options, c: Collaborators)
    ensures var p := UpdateParams(options - {"resource_type", "type"}, c);
            p.Success? ==>
              |Select(options, UpdateKeys)| <= |p.value| && p.value[..|Select(options, UpdateKeys)|] == Select(options, UpdateKeys)
  {
    SelectIgnoresOtherKeys(options, {"resource_type", "type"}, UpdateKeys);
  }

  /**
    `delete_resources(public_ids, **options)`: one `public_ids[]` pair per id,
    in input order, then the whitelisted options.
   */
  function DeleteResources(publicIds: seq<string>, options: Options): (r: Call)
    ensures r.verb == DELETE
    ensures r.uri == [Str("resources"), Get(options, "resource_type", Image), Get(options, "type", Upload)]
    ensures r.params.ParamList? && |r.params.items| >= |publicIds|
    ensures forall i :: 0 <= i < |publicIds| ==> r.params.items[i] == ("public_ids[]", Str(publicIds[i]))
    ensures r.params.items[|publicIds|..] == Select(options, DeleteKeys)
    ensures r.options == options - {"resource_type", "type"}
  {
    var (resourceType, uploadType, rest) := PopTypes(options, Upload);
    var ids := IdPairs("public_ids[]", publicIds);
    OnlyAfterPop(options, {"resource_type", "type"}, DeleteKeys);
    var pairs := ids + Only(rest, DeleteKeys);
    assert pairs[|publicIds|..] == Only(rest, DeleteKeys);
    Call(DELETE, [Str("resources"), resourceType, uploadType], ParamList(pairs), rest)
  }

  /** `delete_resources_by_prefix(prefix, **options)`: the whitelisted options, then `prefix`. */
  function DeleteResourcesByPrefix(prefix: string, options: Options): (r: Call)
    ensures r.verb == DELETE
    ensures r.uri == [Str("resources"), Get(options, "resource_type", Image), Get(options, "type", Upload)]
    ensures r.params == ParamDict(Select(options, DeleteKeys) + [("prefix", Str(prefix))])
    ensures r.options == options - {"resource_type", "type"}
  {
    var (resourceType, uploadType, rest) := PopTypes(options, Upload);
    OnlyAfterPop(options, {"resource_type", "type"}, DeleteKeys);
    Call(DELETE, [Str("resources"), resourceType, uploadType],
         ParamDict(Assign(Only(rest, DeleteKeys), "prefix", Str(prefix))), rest)
  }

  /** `delete_all_resources(**options)`: the whitelisted options, then `all=True`. */
  function DeleteAllResources(options: Options): (r: Call)
    ensures r.verb == DELETE
    ensures r.uri == [Str("resources"), Get(options, "resource_type", Image), Get(options, "type", Upload)]
    ensures r.params == ParamDict(Select(options, DeleteKeys) + [("all", Bool(true))])
    ensures r.options == options - {"resource_type", "type"}
  {
    var (resourceType, uploadType, rest) := PopTypes(options, Upload);
    OnlyAfterPop(options, {"resource_type", "type"}, DeleteKeys);
    Call(DELETE, [Str("resources"), resourceType, uploadType],
         ParamDict(Assign(Only(rest, DeleteKeys), "all", Bool(true))), rest)
  }

  /** `delete_resources_by_tag(tag, **options)`: a given `type` option is not popped and goes on to `call_api`. */
  function DeleteResourcesByTag(tag: string, options: Options): (r: Call)
    ensures r.verb == DELETE
    ensures r.uri == [Str("resources"), Get(options, "resource_type", Image), Str("tags"), Str(tag)]
    ensures r.params == ParamDict(Select(options, DeleteKeys))
    ensures r.options == options - {"resource_type"}
  {
    var (resourceType, rest) := Pop(options, "resource_type", Image);
    OnlyAfterPop(options, {"resource_type"}, DeleteKeys);
    Call(DELETE, [Str("resources"), resourceType, Str("tags"), Str(tag)], ParamDict(Only(rest, DeleteKeys)), rest)
  }

  /** `delete_derived_resources(derived_resource_ids, **options)`: one `derived_resource_ids[]` pair per id, nothing else. */
  function DeleteDerivedResources(derivedResourceIds: seq<string>, options: Options): (r: Call)
    ensures r.verb == DELETE && r.uri == [Str("derived_resources")]
    ensures r.params.ParamList? && |r.params.items| == |derivedResourceIds|
    ensures forall i :: 0 <= i < |derivedResourceIds| ==>
              r.params.items[i] == ("derived_resource_ids[]", Str(derivedResourceIds[i]))
    ensures r.options == options
  {
    Call(DELETE, [Str("derived_resources")], ParamList(IdPairs("derived_resource_ids[]", derivedResourceIds)), options)
  }

  /** `restore(public_ids, **options)`: one `public_ids[]` pair per id, nothing else. */
  function Restore(publicIds: seq<string>, options: Options): (r: Call)
    ensures r.verb == POST
    ensures r.uri == [Str("resources"), Get(options, "resource_type", Image), Get(options, "type", Upload), Str("restore")]
    ensures r.params.ParamList? && |r.params.items| == |publicIds|
    ensures forall i :: 0 <= i < |publicIds| ==> r.params.items[i] == ("public_ids[]", Str(publicIds[i]))
    ensures r.options == options - {"resource_type", "type"}
  {
    var (resourceType, uploadType, rest) := PopTypes(options, Upload);
    Call(POST, [Str("resources"), resourceType, uploadType, Str("restore")],
         ParamList(IdPairs("public_ids[]", publicIds)), rest)
  }

  /** `tags(**options)` */
  function Tags(options: Options): (r: Call)
    ensures r.verb == GET && r.uri == [Str("tags"), Get(options, "resource_type", Image)]
    ensures r.params == ParamDict(Select(options, TagsKeys))
    ensures r.options == options - {"resource_type"}
  {
    var (resourceType, rest) := Pop(options, "resource_type", Image);
    OnlyAfterPop(options, {"resource_type"}, TagsKeys);
    Call(GET, [Str("tags"), resourceType], ParamDict(Only(rest, TagsKeys)), rest)
  }

  // ---- transformations -----------------------------------------------------------

  /** `transformations(**options)` */
  function Transformations(options: Options): (r: Call)
    ensures r.verb == GET && r.uri == [Str("transformations")]
    ensures r.params == ParamDict(Select(options, PageKeys)) && r.options == options
  {
    OnlyFollowsWhitelistOrder(options, PageKeys);
    Call(GET, [Str("transformations")], ParamDict(Only(options, PageKeys)), options)
  }

  /** `transformation(transformation, **options)`: the transformation is a URI segment, as a transformation string. */
  function Transformation(transformation: Value, options: Options, c: Collaborators): (r: Result<Call, Raised>)
    ensures TransformationString(transformation, c).Failure? ==>
              r.Failure? && r.error == TransformationString(transformation, c).error
    ensures TransformationString(transformation, c).Success? ==>
              r == Success(Call(GET, [Str("transformations"), Str(TransformationString(transformation, c).value)],
                                ParamDict(Select(options, PageKeys)), options))
  {
    var name :- TransformationString(transformation, c);
    OnlyFollowsWhitelistOrder(options, PageKeys);
    Success(Call(GET, [Str("transformations"), Str(name)], ParamDict(Only(options, PageKeys)), options))
  }

  /** `delete_transformation(transformation, **options)` */
  function DeleteTransformation(transformation: Value, options: Options, c: Collaborators): (r: Result<Call, Raised>)
    ensures TransformationString(transformation, c).Failure? ==>
              r.Failure? && r.error == TransformationString(transformation, c).error
    ensures TransformationString(transformation, c).Success? ==>
              r == Success(Call(DELETE, [Str("transformations"), Str(TransformationString(transformation, c).value)],
                                ParamDict([]), options))
  {
    var name :- TransformationString(transformation, c);
    Success(Call(DELETE, [Str("transformations"), Str(name)], ParamDict([]), options))
  }

  /**
    `update_transformation(transformation, **options)`: only `allowed_for_strict`
    (as given) and `unsafe_update` (as a transformation string) are sent; when
    neither is given it raises "No updates given" and issues no call.
   */
  function UpdateTransformation(transformation: Value, options: Options, c: Collaborators): (r: Result<Call, Raised>)
    ensures TransformationString(transformation, c).Failure? ==>
              r.Failure? && r.error == TransformationString(transformation, c).error
    ensures TransformationString(transformation, c).Success? && "unsafe_update" in options
            && TransformationString(options["unsafe_update"], c).Failure? ==>
              r.Failure? && r.error == TransformationString(options["unsafe_update"], c).error
    ensures TransformationString(transformation, c).Success?
            && "allowed_for_strict" !in options && "unsafe_update" !in options ==>
              r == Failure(Raised(Exception, "No updates given"))
    ensures r.Success? <==>
              && TransformationString(transformation, c).Success?
              && ("allowed_for_strict" in options || "unsafe_update" in options)
              && ("unsafe_update" in options ==> TransformationString(options["unsafe_update"], c).Success?)
    ensures r.Success? ==>
              && r.value.verb == PUT
              && r.value.uri == [Str("transformations"), Str(TransformationString(transformation, c).value)]
              && r.value.options == options
              && r.value.params.ParamDict?
              && (forall k :: k in KeysOf(r.value.params.items) <==>
                                k in options && (k == "allowed_for_strict" || k == "unsafe_update"))
              && ("allowed_for_strict" in options ==>
                    Find(r.value.params.items, "allowed_for_strict") == Some(options["allowed_for_strict"]))
              && ("unsafe_update" in options ==>
                    Find(r.value.params.items, "unsafe_update")
                    == Some(Str(TransformationString(options["unsafe_update"], c).value)))
  {
    var name := TransformationString(transformation, c);
    if name.Failure? then Failure(name.error)
    else
      var updates := Only(options, ["allowed_for_strict"]);
      var unsafe := if "unsafe_update" in options then TransformationString(options["unsafe_update"], c) else Success("");
      if unsafe.Failure? then Failure(unsafe.error)
      else
        var updates := if "unsafe_update" in options then Assign(updates, "unsafe_update", Str(unsafe.value)) else updates;
        if updates == [] then Failure(Raised(Exception, "No updates given"))
        else
          assert "allowed_for_strict" in options || "unsafe_update" in options by {
            assert KeysOf(updates) != [];
            assert KeysOf(updates)[0] in KeysOf(updates);
          }
          Success(Call(PUT, [Str("transformations"), Str(name.value)], ParamDict(updates), options))
  }

  /** `create_transformation(name, definition, **options)`: sends only the definition, as a transformation string. */
  function CreateTransformation(name: string, definition: Value, options: Options, c: Collaborators): (r: Result<Call, Raised>)
    ensures TransformationString(definition, c).Failure? ==>
              r.Failure? && r.error == TransformationString(definition, c).error
    ensures TransformationString(definition, c).Success? ==>
              r == Success(Call(POST, [Str("transformations"), Str(name)],
                                ParamDict([("transformation", Str(TransformationString(definition, c).value))]), options))
  {
    var text :- TransformationString(definition, c);
    Success(Call(POST, [Str("transformations"), Str(name)], ParamDict([("transformation", Str(text))]), options))
  }

  // ---- upload presets ------------------------------------------------------------

  /** `upload_presets(**options)` */
  function UploadPresets(options: Options): (r: Call)
    ensures r.verb == GET && r.uri == [Str("upload_presets")]
    ensures r.params == ParamDict(Select(options, PageKeys)) && r.options == options
  {
    OnlyFollowsWhitelistOrder(options, PageKeys);
    Call(GET, [Str("upload_presets")], ParamDict(Only(options, PageKeys)), options)
  }

  /** `upload_preset(name, **options)` */
  function UploadPreset(name: string, options: Options): (r: Call)
    ensures r.verb == GET && r.uri == [Str("upload_presets"), Str(name)]
    ensures r.params == ParamDict(Select(options, ["max_results"])) && r.options == options
  {
    OnlyFollowsWhitelistOrder(options, ["max_results"]);
    Call(GET, [Str("upload_presets"), Str(name)], ParamDict(Only(options, ["max_results"])), options)
  }

  /** `delete_upload_preset(name, **options)` */
  function DeleteUploadPreset(name: string, options: Options): (r: Call)
    ensures r.verb == DELETE && r.uri == [Str("upload_presets"), Str(name)]
    ensures r.params == ParamDict([]) && r.options == options
  {
    Call(DELETE, [Str("upload_presets"), Str(name)], ParamDict([]), options)
  }

  /**
    The parameters of the preset operations: what `build_upload_params` and
    `cleanup_params` produce, updated with the whitelisted options, which win.
   */
  function PresetParams(options: Options, keys: seq<string>, c: Collaborators): (p: Entries)
    requires Distinct(keys)
    ensures forall k :: k in KeysOf(p) <==> k in KeysOf(c.cleanupParams(c.buildUploadParams(options))) || (k in keys && k in options)
    ensures forall k :: Find(p, k) == if k in keys && k in options then Some(options[k])
                                      else Find(c.cleanupParams(c.buildUploadParams(options)), k)
    ensures var base := c.cleanupParams(c.buildUploadParams(options));
            |base| <= |p| && KeysOf(p)[..|base|] == KeysOf(base) && (UniqueKeys(base) ==> UniqueKeys(p))
  {
    var base := c.cleanupParams(c.buildUploadParams(options));
    var selected := Only(options, keys);
    var p := UpdateWith(base, selected);
    assert forall k :: k in KeysOf(p) <==> k in KeysOf(base) || (k in keys && k in options) by {
      forall k ensures k in KeysOf(p) <==> k in KeysOf(base) || k in KeysOf(selected) {
        UpdateWithHasKey(base, selected, k);
      }
    }
    assert forall k :: Find(p, k) == if k in keys && k in options then Some(options[k]) else Find(base, k) by {
      forall k ensures Find(p, k) == if k in KeysOf(selected) then Find(selected, k) else Find(base, k) {
        UpdateWithFind(base, selected, k);
      }
    }
    UpdateWithKeepsOrder(base, selected);
    p
  }

  /** `update_upload_preset(name, **options)` */
  function UpdateUploadPreset(name: string, options: Options, c: Collaborators): (r: Call)
    ensures r.verb == PUT && r.uri == [Str("upload_presets"), Str(name)] && r.options == options
    ensures r.params.ParamDict?
    ensures forall k :: k in KeysOf(r.params.items) <==>
                          k in KeysOf(c.cleanupParams(c.buildUploadParams(options))) || (k in UpdatePresetKeys && k in options)
    ensures forall k :: Find(r.params.items, k) ==
                          if k in UpdatePresetKeys && k in options then Some(options[k])
                          else Find(c.cleanupParams(c.buildUploadParams(options)), k)
  {
    Call(PUT, [Str("upload_presets"), Str(name)], ParamDict(PresetParams(options, UpdatePresetKeys, c)), options)
  }

  /** `create_upload_preset(**options)` */
  function CreateUploadPreset(options: Options, c: Collaborators): (r: Call)
    ensures r.verb == POST && r.uri == [Str("upload_presets")] && r.options == options
    ensures r.params.ParamDict?
    ensures forall k :: k in KeysOf(r.params.items) <==>
                          k in KeysOf(c.cleanupParams(c.buildUploadParams(options))) || (k in CreatePresetKeys && k in options)
    ensures forall k :: Find(r.params.items, k) ==
                          if k in CreatePresetKeys && k in options then Some(options[k])
                          else Find(c.cleanupParams(c.buildUploadParams(options)), k)
  {
    Call(POST, [Str("upload_presets")], ParamDict(PresetParams(options, CreatePresetKeys, c)), options)
  }

  // ---- folders -------------------------------------------------------------------

  /** `root_folders(**options)` */
  function RootFolders(options: Options): (r: Call)
    ensures r.verb == GET && r.uri == [Str("folders")]
    ensures r.params == ParamDict([]) && r.options == options
  {
    Call(GET, [Str("folders")], ParamDict([]), options)
  }

  /** `subfolders(of_folder_path, **options)` */
  function Subfolders(ofFolderPath: string, options: Options): (r: Call)
    ensures r.verb == GET && r.uri == [Str("folders"), Str(ofFolderPath)]
    ensures r.params == ParamDict([]) && r.options == options
  {
    Call(GET, [Str("folders"), Str(ofFolderPath)], ParamDict([]), options)
  }

  // ---- upload mappings -----------------------------------------------------------

  /** `upload_mappings(**options)` */
  function UploadMappings(options: Options): (r: Call)
    ensures r.verb == GET && r.uri == [Str("upload_mappings")]
    ensures r.params == ParamDict(Select(options, PageKeys)) && r.options == options
  {
    OnlyFollowsWhitelistOrder(options, PageKeys);
    Call(GET, [Str("upload_mappings")], ParamDict(Only(options, PageKeys)), options)
  }

  /** `upload_mapping(name, **options)`: the mapping is named by the `folder` parameter. */
  function UploadMapping(name: string, options: Options): (r: Call)
    ensures r.verb == GET && r.uri == [Str("upload_mappings")]
    ensures r.params == ParamDict([("folder", Str(name))]) && r.options == options
  {
    Call(GET, [Str("upload_mappings")], ParamDict([("folder", Str(name))]), options)
  }

  /** `delete_upload_mapping(name, **options)` */
  function DeleteUploadMapping(name: string, options: Options): (r: Call)
    ensures r.verb == DELETE && r.uri == [Str("upload_mappings")]
    ensures r.params == ParamDict([("folder", Str(name))]) && r.options == options
  {
    Call(DELETE, [Str("upload_mappings")], ParamDict([("folder", Str(name))]), options)
  }

  /** `dict(folder=name)` updated with the `template` option: `folder` first, then `template` when given. */
  function MappingParams(name: string, options: Options): (p: Entries)
    ensures p == [("folder", Str(name))] + Select(options, ["template"])
  {
    var folder := [("folder", Str(name))];
    var selected := Only(options, ["template"]);
    OnlyFollowsWhitelistOrder(options, ["template"]);
    if "template" in options then
      var entry := ("template", options["template"]);
      assert selected == [entry] && selected[1..] == [];
      assert "template" !in KeysOf(folder);
      assert UpdateWith(folder, selected) == UpdateWith(Assign(folder, entry.0, entry.1), []);
      UpdateWith(folder, selected)
    else
      assert selected == [];
      UpdateWith(folder, selected)
  }

  /** `update_upload_mapping(name, **options)` */
  function UpdateUploadMapping(name: string, options: Options): (r: Call)
    ensures r.verb == PUT && r.uri == [Str("upload_mappings")]
    ensures r.params == ParamDict([("folder", Str(name))] + Select(options, ["template"])) && r.options == options
  {
    Call(PUT, [Str("upload_mappings")], ParamDict(MappingParams(name, options)), options)
  }

  /** `create_upload_mapping(name, **options)` */
  function CreateUploadMapping(name: string, options: Options): (r: Call)
    ensures r.verb == POST && r.uri == [Str("upload_mappings")]
    ensures r.params == ParamDict([("folder", Str(name))] + Select(options, ["template"])) && r.options == options
  {
    Call(POST, [Str("upload_mappings")], ParamDict(MappingParams(name, options)), options)
  }

  // ---- streaming profiles --------------------------------------------------------

  /** `list_streaming_profiles(**options)` */
  function ListStreamingProfiles(options: Options): (r: Call)
    ensures r.verb == GET && r.uri == [Str("streaming_profiles")]
    ensures r.params == ParamDict([]) && r.options == options
  {
    Call(GET, [Str("streaming_profiles")], ParamDict([]), options)
  }

  /** `get_streaming_profile(name, **options)` */
  function GetStreamingProfile(name: string, options: Options): (r: Call)
    ensures r.verb == GET && r.uri == [Str("streaming_profiles"), Str(name)]
    ensures r.params == ParamDict([]) && r.options == options
  {
    Call(GET, [Str("streaming_profiles"), Str(name)], ParamDict([]), options)
  }

  /** `delete_streaming_profile(name, **options)` */
  function DeleteStreamingProfile(name: string, options: Options): (r: Call)
    ensures r.verb == DELETE && r.uri == [Str("streaming_profiles"), Str(name)]
    ensures r.params == ParamDict([]) && r.options == options
  {
    Call(DELETE, [Str("streaming_profiles"), Str(name)], ParamDict([]), options)
  }

  /** `create_streaming_profile(name, **options)`: the profile parameters, with `name` set. */
  function CreateStreamingProfile(name: string, options: Options, c: Collaborators): (r: Result<Call, Raised>)
    ensures r.Success? <==> StreamingProfileParams(options, c).Success?
    ensures r.Failure? ==> r.error == StreamingProfileParams(options, c).error
    ensures r.Success? ==>
              && r.value.verb == POST && r.value.uri == [Str("streaming_profiles")] && r.value.options == options
              && r.value.params.ParamDict? && UniqueKeys(r.value.params.items)
              && Find(r.value.params.items, "name") == Some(Str(name))
              && (forall k :: k in KeysOf(r.value.params.items) <==>
                                k == "name" || k in KeysOf(StreamingProfileParams(options, c).value))
              && (forall k :: k != "name" ==>
                                Find(r.value.params.items, k) == Find(StreamingProfileParams(options, c).value, k))
  {
    var params :- StreamingProfileParams(options, c);
    Success(Call(POST, [Str("streaming_profiles")], ParamDict(Assign(params, "name", Str(name))), options))
  }

  /** `update_streaming_profile(name, **options)` */
  function UpdateStreamingProfile(name: string, options: Options, c: Collaborators): (r: Result<Call, Raised>)
    ensures r.Success? <==> StreamingProfileParams(options, c).Success?
    ensures r.Failure? ==> r.error == StreamingProfileParams(options, c).error
    ensures r.Success? ==>
              r.value == Call(PUT, [Str("streaming_profiles"), Str(name)],
                              ParamDict(StreamingProfileParams(options, c).value), options)
  {
    var params :- StreamingProfileParams(options, c);
    Success(Call(PUT, [Str("streaming_profiles"), Str(name)], ParamDict(params), options))
  }
}
