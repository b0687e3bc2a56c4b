/**
  Code the marshaling layer calls but that is not part of this model: the
  encoders of `cloudinary.utils`, `json.dumps`, and Python's `str` of the
  values whose text is not modelled. They are handed in as one record, so
  every statement proved here holds whatever they compute.
 */
module External {
  import opened Values
  import Text

  datatype Collaborators = Collaborators(
    /** `utils.build_array(v)`: a value as a list, whose items need not be strings */
    buildArray: Value -> seq<Value>,
    /** `utils.encode_double_array(v)` */
    encodeDoubleArray: Value -> string,
    /** `utils.encode_dict(v)` */
    encodeDict: Value -> string,
    /** `utils.generate_transformation_string(**t)[0]` */
    generateTransformationString: map<string, Value> -> string,
    /** `utils.build_upload_params(**options)` */
    buildUploadParams: Options -> Entries,
    /** `utils.cleanup_params(params)` */
    cleanupParams: Entries -> Entries,
    /** `json.dumps(v)` */
    jsonDumps: Value -> string,
    /** `str(v)` of a float, a list or a dict */
    show: Value -> string
  )

  /** Python's `str(v)` (and `"{}".format(v)`). */
  function PyStr(v: Value, c: Collaborators): string {
    match v
    case Null => "None"
    case Bool(b) => if b then "True" else "False"
    case Int(i) => Text.IntText(i)
    case Str(s) => s
    case _ => c.show(v)
  }
}
