# Cloudinary Admin API marshaling layer, modelled in Dafny

This project models the request-marshaling core of the Cloudinary Python SDK's
Admin API module, `cloudinary/api.py`. That core has three parts:

- **The request builders.** There is one per remote operation: `resources`,
  `update`, `delete_resources`, `update_transformation`, the upload-preset,
  upload-mapping and streaming-profile operations, and the rest. Each pops
  the options it consumes and builds the URI segments. It picks its
  parameters out of the keyword options with the whitelist filter `only`,
  encoding some of them on the way, and calls `call_api` with what it built
  and with the remaining options.
- **`call_api` around the network exchange.** Before the exchange it works
  out the API prefix and the account credentials, from the call or from the
  process configuration, and builds the URL
  `<prefix>/v1_1/<cloud_name>/<segments...>`. After the exchange it turns a
  decoded reply into a `Response`, or raises the exception class that
  `EXCEPTION_CODES` maps the HTTP status to.
- **The shared pure helpers.** These are `only`, `transformation_string` and
  `__prepare_streaming_profile_params`.

The model has six modules:

- **`Values`.** Python values and their truthiness. Keyword options are a
  `map`. The parameter dicts the builders assemble are insertion-ordered
  sequences of pairs, with `d[k] = v` (`Assign`), `d.update(e)`
  (`UpdateWith`) and `only` (`Only`). `Select` is a reference definition of
  `only` that filters in whitelist order.
- **`Text`.** `sep.join`, `s.split` and the decimal rendering of integers.
- **`Errors`.** The exception hierarchy and `EXCEPTION_CODES`.
- **`Requests`.** The call a builder issues (`Call`), plus
  `transformation_string` and the streaming-profile parameters.
- **`Operations`.** One function per builder, returning the `Call` it hands
  to `call_api`, or the exception it raises first.
- **`Dispatch`.** `call_api`: credential resolution, the URL, reply
  handling, and the whole call with the network exchange passed in as a
  function.

Every `**options` dict is a fresh copy local to its call, so its in-place pops
and item assignments are never visible to a caller. The model threads them
through as values.

Three helpers from `cloudinary.utils` that the builders call are not part of
this model: `build_array`, `encode_double_array` and `encode_dict`. Nor are
`generate_transformation_string`, `build_upload_params`, `cleanup_params`,
`json.dumps` and Python's `str` of floats, lists and dicts. All of these are
fields of the `External.Collaborators` record, passed in as a parameter, so
every property below holds whatever values they return. `build_array` may
return items that are not strings, and then the `","`-join in `update`
raises TypeError, which the model states. That the other helpers might
themselves raise is not modelled (see "Left out").

Three behaviours of the code are easy to misread. The model follows the code:

- **An error reply with an unmapped status** raises the built-in
  `Exception`, which is not an `Error`, rather than the base `Error` class
  (`Errors.ClassFor`, `Dispatch.ErrorReplyClass`).
- **A per-call `upload_prefix` that is falsy** (for example `""`) does not
  win over the configuration. `or` is applied to the popped value, so the
  built-in default is used, not the configured prefix
  (`Dispatch.FalsyCallPrefixSkipsConfig`).
- **A missing `api_secret` is not rejected.** See "Findings" below.

## Model

| member | source | states |
|---|---|---|
| Values.Assign | cloudinary/api.py:102-111 | `d[k] = v`. The value is stored under `k`. Every other key keeps its value. A new key is appended at the end, and an existing one keeps its place. A dict stays free of duplicate keys. |
| Values.Truthy | cloudinary/api.py:298-304 | Python's truth test, as applied here and at lines 59 and 181. `Values.FalsyValues` states which values are falsy. |
| Values.FalsyValues | cloudinary/api.py:298-304 | A value is falsy iff it is `None`, `False`, `0`, `0.0`, `""`, an empty list or an empty dict. |
| Values.Pop | cloudinary/api.py:56-57 | `options.pop(key, default)` yields the value under `key`, or the default when it is absent. The key is then gone. Every other key stays, with its value. |
| Values.Find | cloudinary/api.py:102-111 | A helper that states what a built parameter dict holds. Looking up `k` succeeds exactly when `k` is a key. The value returned is paired with `k` in the dict. |
| Values.Texts | cloudinary/api.py:305 | The strings of the pieces, present iff every piece is a string. |
| Values.UpdateWith | cloudinary/api.py:210 | `d.update(e)` (also at lines 218, 258 and 265), as one `d[k] = v` per entry of `e` in turn. Its properties are the three lemmas below. |
| Values.UpdateWithHasKey | cloudinary/api.py:210 | After `d.update(e)`, a key is present iff it was in `d` or in `e`. |
| Values.UpdateWithFind | cloudinary/api.py:210 | After `d.update(e)`, a key of `e` holds `e`'s value, and any other key holds `d`'s value. |
| Values.UpdateWithKeepsOrder | cloudinary/api.py:210 | `d.update(e)` keeps `d`'s keys first, in their old order. |
| Values.Only | cloudinary/api.py:337-338 | `only(source, *keys)` holds exactly the whitelisted keys that `source` has, each with its value from `source`, and no key twice. |
| Values.Select | cloudinary/api.py:337-338 | The reference definition of `only`. Every pair comes from `source` under a whitelisted key. The keys are exactly the whitelisted ones present. A whitelist without repeats gives unique keys. |
| Values.OnlyFollowsWhitelistOrder | cloudinary/api.py:337-338 | For a whitelist without repeats, `only` equals the reference definition, so its items come in whitelist order. |
| Values.SelectIgnoresOtherKeys | cloudinary/api.py:56-60 | Popping options that are not whitelisted does not change what `only` selects. |
| Values.OnlyAfterPop | cloudinary/api.py:56-60 | `only` over the options after the pops equals the reference selection over the options as given. |
| Text.Join | cloudinary/api.py:305 | `sep.join(parts)` on strings. `Text.JoinAppend` and `Text.SplitJoin` state its properties. |
| Text.JoinAppend | cloudinary/api.py:305 | Joining two non-empty lists puts exactly one separator between their joins. |
| Text.SplitJoin | cloudinary/api.py:305 | Splitting a `"/".join` on `/` gives back the parts, when no part contains `/`. |
| Text.Decimal | cloudinary/api.py:332 | `str(n)` of a non-negative status is a non-empty string of decimal digits, with no leading zero unless `n` is 0. |
| Text.DecimalRoundTrip | cloudinary/api.py:332 | Reading the rendered digits back gives the number. |
| Text.DecimalUnique | cloudinary/api.py:332 | The rendering is the only one: a digit string without a leading zero (or `"0"`) that reads back as `n` is `str(n)`. |
| Errors.BaseOf | cloudinary/api.py:12-19 | Each class's base is one level up the hierarchy. The seven `Error` subclasses derive from `Error`. `Error`, `TypeError` and `KeyError` derive from `Exception`. |
| Errors.ClassFor | cloudinary/api.py:330 | A status in `EXCEPTION_CODES` gives a proper subclass of `Error`. Any other status gives the built-in `Exception`, which is not an `Error`. |
| Errors.ClassForDistinguishesStatuses | cloudinary/api.py:21-29 | Two different mapped statuses raise two different classes. |
| Errors.ErrorFamily | cloudinary/api.py:12-29 | Every class in `EXCEPTION_CODES` is a proper subclass of `Error`, and so of `Exception`. |
| External.PyStr | cloudinary/api.py:111 | Python's `str(v)` (also `format` at line 332): `None`, `True`/`False`, decimal integers and strings as themselves. Other values go to the opaque renderer. `Dispatch.ErrorMessageNamesStatus` states what it gives for a status. |
| Requests.PyJoin | cloudinary/api.py:103 | `sep.join(items)` succeeds iff every item is a string, and then joins their texts. Otherwise it raises TypeError. |
| Requests.TransformationString | cloudinary/api.py:341-345 | A string is returned as is. A mapping is expanded by the generator. Anything else raises TypeError. |
| Requests.IdPairs | cloudinary/api.py:83 | One `(name, id)` pair per id, in input order. |
| Requests.Iterate | cloudinary/api.py:351 | Iterating a list yields its items. Iterating a string yields its characters. Other values raise TypeError. |
| Requests.Representations | cloudinary/api.py:351 | The list holds one `{"transformation": ...}` per item, in order, exactly when every item is a transformation. Otherwise the first failing item's error is raised. |
| Requests.RepresentationsJson | cloudinary/api.py:351-352 | The JSON text of the representation list is produced iff the option iterates and every item converts. |
| Requests.StreamingProfileParams | cloudinary/api.py:348-353 | The keys are exactly `display_name` and `representations` among those given. `display_name` is sent as given and `representations` as JSON. Without `representations` the result is plain `only`, and only building the representations can fail. |
| Requests.ProfileEntries | cloudinary/api.py:349-352 | The dict holds `display_name` (when given) and then the JSON `representations`, with unique keys. |
| Operations.PopTypes | cloudinary/api.py:97-98 | The popped resource type (default `"image"`) and upload type (with the builder's default), and the options without those two keys. |
| Operations.Ping | cloudinary/api.py:43-44 | GET `["ping"]`, with no parameters and the options unchanged. |
| Operations.Usage | cloudinary/api.py:47-48 | GET `["usage"]`, with no parameters and the options unchanged. |
| Operations.ResourceTypes | cloudinary/api.py:51-52 | GET `["resources"]`, with no parameters and the options unchanged. |
| Operations.Resources | cloudinary/api.py:55-62 | The resource type defaults to image. The upload type is a segment only when it is truthy. The parameters are the eight whitelisted options in whitelist order. Both type keys are popped. |
| Operations.ResourcesByTag | cloudinary/api.py:65-69 | The URI is resources/type/tags/tag, with the listing whitelist. Only `resource_type` is popped. |
| Operations.ResourcesByModeration | cloudinary/api.py:72-76 | The URI is resources/type/moderations/kind/status, with the listing whitelist. |
| Operations.ResourcesByIds | cloudinary/api.py:79-85 | A pair list: one `public_ids[]` per id, in order, then the whitelisted options. The upload type defaults to upload. |
| Operations.Resource | cloudinary/api.py:88-93 | GET of resources/type/upload-type/id, with the eight-option whitelist. |
| Operations.UpdateEncodings | cloudinary/api.py:102-111 | The encoded options, in the order `update` adds them: tags, face_coordinates, custom_coordinates, context, auto_tagging. |
| Operations.TagsEncoded | cloudinary/api.py:103 | `",".join(utils.build_array(tags))` as a string value, or the join's TypeError. `Operations.OnlyTagsRaise` and `Operations.UpdateEncoders` state it. |
| Operations.UpdateEncoders | cloudinary/api.py:102-111 | What each encoder yields on its option's value: the joined tags, the two double arrays, the encoded dict and the `str` of auto_tagging. |
| Operations.OnlyTagsRaise | cloudinary/api.py:102-111 | Of the five encoders only the one for tags can raise, exactly when the join raises, and it raises the join's error. |
| Operations.GivenEntry | cloudinary/api.py:102-111 | One step's contribution: no entry when the option is absent, the encoded entry when it is given, or the encoder's error. |
| Operations.Encoded | cloudinary/api.py:102-111 | The reference definition of the encoded entries. The keys are exactly the given encoded options, with no key twice. |
| Operations.EncodedSucceeds | cloudinary/api.py:102-111 | The encoded entries are built iff no given option's encoder raises. |
| Operations.EncodedRaisesFirst | cloudinary/api.py:102-111 | What is raised is the error of the first given option whose encoder raises. |
| Operations.AddEncoded | cloudinary/api.py:102-111 | The five `if key in options: params[key] = ...` steps, in order, stopping at the first that raises. `Operations.AddEncodedAppends` states its result. |
| Operations.AddEncodedAppends | cloudinary/api.py:102-111 | Running the steps over a dict that holds none of their keys raises iff the reference raises, and raises the same error. Otherwise it appends the reference entries. |
| Operations.EncodedFind | cloudinary/api.py:102-111 | A given encoded option holds its encoder applied to its value. |
| Operations.EncodedKeysAreNotWhitelisted | cloudinary/api.py:100-111 | No encoded option is also sent as given. |
| Operations.UpdateParams | cloudinary/api.py:100-111 | The parameters of `update` are the whitelisted options, in whitelist order, followed by the encoded ones, in encoding order. Otherwise it raises the reference's error. |
| Operations.UpdateParamsRaises | cloudinary/api.py:102-103 | Building the `update` parameters raises iff tags are given and joining `build_array`'s items raises. It raises that join's TypeError. |
| Operations.UpdateParamsKeys | cloudinary/api.py:100-111 | `update` sends exactly the given whitelisted and encoded options, each once. |
| Operations.UpdateParamsVerbatim | cloudinary/api.py:100-101 | A whitelisted option is sent with its value unchanged. |
| Operations.UpdateParamsEncodes | cloudinary/api.py:102-111 | Each encoded option that is given is sent through its own encoder. |
| Operations.UpdateParamsEncoded | cloudinary/api.py:102-111 | The five encoders: tags are joined with `,`, both coordinate options become double arrays, context an encoded dict, and auto_tagging its `str`. |
| Operations.Update | cloudinary/api.py:96-112 | Raises the join's TypeError iff tags are given and `build_array` yields an item that is not a string. Otherwise it is a POST to resources/type/upload-type/id, with the `update` parameters built from the options after the pops. |
| Operations.UpdateSendsWhitelistFirst | cloudinary/api.py:97-101 | The parameters start with the whitelisted options as given, unaffected by the type pops. |
| Operations.DeleteResources | cloudinary/api.py:115-121 | A pair list: one `public_ids[]` per id, in order, then the delete whitelist. |
| Operations.DeleteResourcesByPrefix | cloudinary/api.py:124-129 | The delete whitelist in order, then `prefix`. |
| Operations.DeleteAllResources | cloudinary/api.py:132-137 | The delete whitelist in order, then `all=True`. |
| Operations.DeleteResourcesByTag | cloudinary/api.py:140-144 | The URI is resources/type/tags/tag. `type` is not popped and stays in the options. |
| Operations.DeleteDerivedResources | cloudinary/api.py:147-151 | Exactly one `derived_resource_ids[]` pair per id, in order. The options are unchanged. |
| Operations.Tags | cloudinary/api.py:154-157 | GET tags/type, with the tags whitelist. |
| Operations.Transformations | cloudinary/api.py:160-162 | GET transformations, with the paging whitelist. |
| Operations.Transformation | cloudinary/api.py:165-167 | The transformation string is the URI segment. A value that is not a transformation raises its error, and no call is made. |
| Operations.DeleteTransformation | cloudinary/api.py:170-172 | A DELETE of the transformation string, with no parameters, or that string's error. |
| Operations.UpdateTransformation | cloudinary/api.py:176-183 | Errors come in the source's order: the name first, then `unsafe_update`, then "No updates given" when neither option is present. A call happens iff all three checks pass. It sends exactly the given `allowed_for_strict` (as given) and `unsafe_update` (as a transformation string). |
| Operations.CreateTransformation | cloudinary/api.py:186-188 | Sends only the definition, as a transformation string, or raises its error. |
| Operations.UploadPresets | cloudinary/api.py:191-193 | GET upload_presets, with the paging whitelist. |
| Operations.UploadPreset | cloudinary/api.py:196-198 | GET upload_presets/name, with only `max_results`. |
| Operations.DeleteUploadPreset | cloudinary/api.py:201-203 | A DELETE of upload_presets/name, with no parameters. |
| Operations.PresetParams | cloudinary/api.py:208-210 | The cleaned upload parameters, updated with the whitelisted options. The keys are the union of both. A whitelisted option wins. The base keys stay first and in order, and stay unique. |
| Operations.UpdateUploadPreset | cloudinary/api.py:206-211 | PUT upload_presets/name. The keys and values are the cleaned upload parameters overridden by `unsigned` and `disallow_public_id`. |
| Operations.CreateUploadPreset | cloudinary/api.py:214-219 | POST upload_presets. As above, with `name` added to the whitelist. |
| Operations.RootFolders | cloudinary/api.py:222-223 | GET folders, with no parameters. |
| Operations.Subfolders | cloudinary/api.py:226-227 | GET folders/path, with no parameters. |
| Operations.Restore | cloudinary/api.py:230-235 | A POST to resources/type/upload-type/restore, with exactly one `public_ids[]` pair per id. |
| Operations.UploadMappings | cloudinary/api.py:238-240 | GET upload_mappings, with the paging whitelist. |
| Operations.UploadMapping | cloudinary/api.py:243-246 | GET upload_mappings, with `folder=name` only. |
| Operations.DeleteUploadMapping | cloudinary/api.py:249-252 | A DELETE of upload_mappings, with `folder=name` only. |
| Operations.MappingParams | cloudinary/api.py:257-258 | `folder` first, then `template` when given. |
| Operations.UpdateUploadMapping | cloudinary/api.py:255-259 | PUT upload_mappings, with `folder` and then the optional `template`. |
| Operations.CreateUploadMapping | cloudinary/api.py:262-266 | POST upload_mappings, with `folder` and then the optional `template`. |
| Operations.ListStreamingProfiles | cloudinary/api.py:269-271 | GET streaming_profiles, with no parameters. |
| Operations.GetStreamingProfile | cloudinary/api.py:274-276 | GET streaming_profiles/name, with no parameters. |
| Operations.DeleteStreamingProfile | cloudinary/api.py:279-281 | A DELETE of streaming_profiles/name, with no parameters. |
| Operations.CreateStreamingProfile | cloudinary/api.py:284-288 | Succeeds iff the profile parameters do. `name` is then set, alongside exactly the profile's keys with their values, with no key twice. |
| Operations.UpdateStreamingProfile | cloudinary/api.py:291-294 | A PUT of streaming_profiles/name, with the profile parameters, or their error. |
| Dispatch.Prefix | cloudinary/api.py:298 | The prefix is always truthy. A truthy per-call prefix wins. Otherwise a truthy configured one applies when the call gives none. Otherwise the default is used. |
| Dispatch.FalsyCallPrefixSkipsConfig | cloudinary/api.py:298 | A falsy per-call prefix gives the built-in default, not the configured prefix. |
| Dispatch.ResolveCredentialsAsWritten | cloudinary/api.py:299-304 | As written, the credentials resolve iff the cloud name and the key are truthy. The secret is never checked. |
| Dispatch.ResolveCredentials | cloudinary/api.py:299-304 | The credentials resolve iff the cloud name, key and secret (each from the call, else from the configuration) are all truthy. The first missing one is reported with its message. The rest of the options are those other than the four account options. |
| Dispatch.CredentialChecksDifferOnlyOnSecret | cloudinary/api.py:303-304 | The written and intended checks differ exactly when only the secret is falsy. |
| Dispatch.EmptySecretIsAccepted | cloudinary/api.py:303-304 | A configuration with an empty secret passes the written check and fails the intended one. |
| Dispatch.UrlText | cloudinary/api.py:305 | `"/".join([prefix, "v1_1", cloud_name] + uri)` once every piece is a string. `Dispatch.UrlLayout`, `Dispatch.UrlAfterPrefix` and `Dispatch.UrlNamesCloudAndSegments` state its shape. |
| Dispatch.ApiUrl | cloudinary/api.py:305 | The URL is built iff prefix, cloud name and every segment are strings, and is then their `/`-join after `v1_1`. Otherwise `join` raises TypeError. |
| Dispatch.JoinHead | cloudinary/api.py:305 | The head of the URL is `<prefix>/v1_1/<cloud>`. |
| Dispatch.UrlLayout | cloudinary/api.py:305 | The URL is `<prefix>/v1_1/<cloud>`, followed by `/` and the joined segments when there are any. |
| Dispatch.UrlAfterPrefix | cloudinary/api.py:305 | The URL is the prefix, one `/`, and the rest joined. |
| Dispatch.UrlNamesCloudAndSegments | cloudinary/api.py:305 | Splitting the URL after the prefix gives back `v1_1`, the cloud name and the segments, when none contains `/`. |
| Dispatch.Prepare | cloudinary/api.py:297-305 | A credential error propagates before any request. A request is made iff credentials and URL succeed. It carries the verb, URL, parameters, key and secret. |
| Dispatch.HandleReply | cloudinary/api.py:329-334 | An error body raises the status's class with `Error <status> - <message>`. A missing message raises KeyError. A non-dict error raises TypeError. Without an error, the reply becomes a `Response` iff the three rate-limit headers are present (otherwise KeyError). |
| Dispatch.ErrorReplyClass | cloudinary/api.py:329-332 | An error reply with a mapped status raises a proper `Error` subclass. With any other status it raises the built-in `Exception`, which is not an `Error`. |
| Dispatch.ErrorMessage | cloudinary/api.py:332 | `"Error {0} - {1}".format(status, message)`. `Dispatch.ErrorMessageNamesStatus` states its shape. |
| Dispatch.ErrorMessageNamesStatus | cloudinary/api.py:332 | The message starts with `Error ` and the status's digits, which read back as the status. |
| Dispatch.NotFoundReply | cloudinary/api.py:329-332 | A 404 error reply raises `NotFound("Error 404 - Not found")`. |
| Dispatch.CallApi | cloudinary/api.py:297-334 | A preparation error is raised as is. Otherwise the reply to the prepared request is handled. |
| Dispatch.MissingCredentialsSendNothing | cloudinary/api.py:299-316 | With a missing credential the outcome does not depend on the exchange, and is an `Exception`. |
| Dispatch.ResourceUrl | cloudinary/api.py:297-305 | End to end: `resource(id)` with no type options is a GET of `<prefix>/v1_1/<cloud>/resources/image/upload/<id>`. |

## Left out

- The network exchange is left out: the connection pool, `make_headers`
  (the basic-auth header built from key and secret, and the user agent) and
  the request timeout option. `Dispatch.CallApi` takes the exchange as a
  function from the prepared `Request` to a decoded `Reply`.
- Transport and decoding failures are left out: `HTTPError`, socket errors,
  UTF-8 or JSON decoding errors and the `GeneralError` messages built from
  them. `Reply.body` is an already decoded JSON object. A body that decodes
  to something other than an object is not modelled.
- Dispatch.HandleReply: does not model `int()` and `email.utils.parsedate`
  of the rate-limit headers. `Response` keeps the header texts, so a header
  that does not parse is not an error here. Nor does it model the
  case-insensitive header dict of the HTTP client: `Reply.headers` is keyed
  by lower-cased header names, so a lookup by the lower-case name stands for
  a lookup in any case.
- Operations.Update: only the join of the tags can raise. That
  `encode_double_array`, `encode_dict`, `str` of a value, the
  transformation-string generator or `json.dumps` might themselves raise is
  not modelled. Their results are taken as given.
- Dispatch.Prepare: uses the corrected credential check
  (`Dispatch.ResolveCredentials`). The code as written is
  `Dispatch.ResolveCredentialsAsWritten` (see "Findings").
- The helpers `utils.build_array`, `encode_double_array`, `encode_dict`,
  `generate_transformation_string`, `build_upload_params` and
  `cleanup_params` are not part of this model. Nor are `json.dumps`, and
  `str` of floats, lists and dicts. They are uninterpreted fields of
  `External.Collaborators`.
- `cloudinary.config()` is a process-wide object. It is passed to each call
  as a `Dispatch.Config` value.
- Requests.Iterate: iterating a dict (which yields its keys in Python) is
  modelled as a TypeError, as are all non-list, non-string values. The
  representation list is therefore only modelled for lists and strings.
- Requests.TransformationString, Dispatch.ApiUrl, Dispatch.HandleReply: the
  messages of the built-in `TypeError` and `KeyError` exceptions are
  placeholders. Only the class is stated.
- Positional identifiers (public ids, tags, names, folder paths) are
  modelled as strings. A non-string identifier, which would reach `"/".join`
  or the server as is, is not modelled.
- Nested dict values (`Values.Dict`) are unordered maps. Their key order
  matters only to the opaque encoders.

## Findings

| source | as written | input that shows it | evidently intended | confidence | as-written member | corrected member |
|---|---|---|---|---|---|---|
| cloudinary/api.py:304 | The check after popping `api_secret` tests `cloud_name` again, so a missing or empty secret is never reported | configuration with cloud name `"demo"`, key `"123"`, secret `""`, and no per-call options | raise "Must supply api_secret" when the resolved secret is falsy | not executed | Dispatch.ResolveCredentialsAsWritten, Dispatch.EmptySecretIsAccepted | Dispatch.ResolveCredentials |
