/**
 * The handle's Python-facing methods: the signatures with their defaults, the
 * conversion of bound Python objects into the Rust parameter types, and the
 * pickling path, where `__getnewargs__` yields Python objects that the
 * constructor's signature must turn back into the same configuration.
 */
module PyMethods {
  import opened Wrappers
  import opened RustTypes
  import opened S3Client
  import opened PythonCall

  /** `(region, throughput_target_gbps=10.0, part_size=8*1024*1024, profile=None, no_sign_request=false)` */
  const NewSignature: seq<Param> := [
    Param("region", None),
    Param("throughput_target_gbps", Some(PyFloat(DefaultThroughputTargetGbps))),
    Param("part_size", Some(PyInt(DefaultPartSize))),
    Param("profile", Some(PyNone)),
    Param("no_sign_request", Some(PyBool(DefaultNoSignRequest)))]

  /** `(bucket, key)` */
  const GetObjectSignature: seq<Param> := [Param("bucket", None), Param("key", None)]

  /** `(bucket, prefix="", delimiter="", max_keys=1000)` */
  const ListObjectsSignature: seq<Param> := [
    Param("bucket", None),
    Param("prefix", Some(PyStr(""))),
    Param("delimiter", Some(PyStr(""))),
    Param("max_keys", Some(PyInt(1000)))]

  /** `(bucket, key, storage_class=None)` */
  const PutObjectSignature: seq<Param> := [Param("bucket", None), Param("key", None), Param("storage_class", Some(PyNone))]

  /** Errors the Python constructor can raise: a refused call, or a failed engine construction. */
  datatype NewError = BadCall(call: CallError) | EngineFailed(construction: ConstructionError)

  /** A Python `str` converts to a Rust `String`; nothing else does. */
  function ExtractString(name: string, v: PyValue): (r: Result<string, CallError>)
    ensures r.Success? <==> v.PyStr?
    ensures r.Success? ==> r.value == v.s
    ensures r.Failure? ==> r.error == WrongType(name)
  {
    if v.PyStr? then Success(v.s) else Failure(WrongType(name))
  }

  /** A Python `float` converts to an `f64`, keeping its bits. */
  function ExtractF64(name: string, v: PyValue): (r: Result<F64, CallError>)
    ensures r.Success? <==> v.PyFloat?
    ensures r.Success? ==> r.value == v.f
    ensures r.Failure? ==> r.error == WrongType(name)
  {
    if v.PyFloat? then Success(v.f) else Failure(WrongType(name))
  }

  /**
   * A Python `int` converts to a `usize` when it lies in range, and is an
   * overflow otherwise; a `bool` is an `int` in Python and converts to 0 or 1.
   */
  function ExtractUsize(name: string, v: PyValue): (r: Result<Usize, CallError>)
    ensures r.Success? <==> (v.PyInt? && 0 <= v.i < UsizeLimit) || v.PyBool?
    ensures r.Success? && v.PyInt? ==> r.value == v.i
    ensures r.Success? && v.PyBool? ==> r.value == if v.b then 1 else 0
    ensures r.Failure? ==> r.error == (if v.PyInt? then Overflow(name) else WrongType(name))
  {
    match v
    case PyInt(i) => if 0 <= i < UsizeLimit then Success(i) else Failure(Overflow(name))
    case PyBool(b) => Success(if b then 1 else 0)
    case _ => Failure(WrongType(name))
  }

  /** `None` converts to `None` and a `str` to `Some` of it. */
  function ExtractOptionalString(name: string, v: PyValue): (r: Result<Option<string>, CallError>)
    ensures r.Success? <==> v.PyNone? || v.PyStr?
    ensures r == Success(None) <==> v.PyNone?
    ensures v.PyStr? ==> r == Success(Some(v.s))
    ensures r.Failure? ==> r.error == WrongType(name)
  {
    match v
    case PyNone => Success(None)
    case PyStr(s) => Success(Some(s))
    case _ => Failure(WrongType(name))
  }

  /** Only a Python `bool` converts to a Rust `bool`. */
  function ExtractBool(name: string, v: PyValue): (r: Result<bool, CallError>)
    ensures r.Success? <==> v.PyBool?
    ensures r.Success? ==> r.value == v.b
    ensures r.Failure? ==> r.error == WrongType(name)
  {
    if v.PyBool? then Success(v.b) else Failure(WrongType(name))
  }

  /** The object `v` bound to the constructor's parameter `j` converts to that parameter's Rust type. */
  predicate NewAccepts(j: nat, v: PyValue)
    requires j < |NewSignature|
  {
    if j == 0 then ExtractString("region", v).Success?
    else if j == 1 then ExtractF64("throughput_target_gbps", v).Success?
    else if j == 2 then ExtractUsize("part_size", v).Success?
    else if j == 3 then ExtractOptionalString("profile", v).Success?
    else ExtractBool("no_sign_request", v).Success?
  }

  /** The object `v` bound to the constructor's parameter `j` converts to component `j` of `t`. */
  predicate NewComponent(j: nat, v: PyValue, t: NewArgs)
    requires j < |NewSignature|
  {
    if j == 0 then ExtractString("region", v) == Success(t.0)
    else if j == 1 then ExtractF64("throughput_target_gbps", v) == Success(t.1)
    else if j == 2 then ExtractUsize("part_size", v) == Success(t.2)
    else if j == 3 then ExtractOptionalString("profile", v) == Success(t.3)
    else ExtractBool("no_sign_request", v) == Success(t.4)
  }

  /** A conversion error that names the constructor's parameter `j`. */
  predicate NamesParam(params: seq<Param>, j: nat, e: CallError)
    requires j < |params|
  {
    e == WrongType(params[j].name) || e == Overflow(params[j].name)
  }

  /**
   * The conversion of the bound objects, parameter by parameter in signature
   * order: it succeeds exactly when every object converts, and otherwise
   * reports the first parameter whose object does not.
   */
  function ConvertNewArgs(vs: seq<PyValue>): (r: Result<NewArgs, CallError>)
    requires |vs| == |NewSignature|
    ensures r.Success? <==> forall j :: 0 <= j < |NewSignature| ==> NewAccepts(j, vs[j])
    ensures r.Success? ==> forall j :: 0 <= j < |NewSignature| ==> NewComponent(j, vs[j], r.value)
    ensures r.Failure? ==>
              exists j :: 0 <= j < |NewSignature| && !NewAccepts(j, vs[j]) && NamesParam(NewSignature, j, r.error) &&
                forall i :: 0 <= i < j ==> NewAccepts(i, vs[i])
  {
    var region :- ExtractString("region", vs[0]);
    var gbps :- ExtractF64("throughput_target_gbps", vs[1]);
    var partSize :- ExtractUsize("part_size", vs[2]);
    var profile :- ExtractOptionalString("profile", vs[3]);
    var noSignRequest :- ExtractBool("no_sign_request", vs[4]);
    Success((region, gbps, partSize, profile, noSignRequest))
  }

  /**
   * The constructor's arguments: bound to its signature, then converted.
   * Every object the call supplies for a parameter, by position, by keyword
   * or as the default, converts to that parameter's component of the tuple.
   */
  function NewArgsOfCall(args: seq<PyValue>, kwargs: Kwargs): (r: Result<NewArgs, CallError>)
    ensures var b := Bind(NewSignature, args, kwargs);
            && (b.Failure? ==> r == Failure(b.error))
            && (b.Success? ==> r == ConvertNewArgs(b.value))
    ensures r.Success? ==> forall j, v :: 0 <= j < |NewSignature| && Supplied(NewSignature, args, kwargs, j, v) ==>
              NewComponent(j, v, r.value)
  {
    var vs :- Bind(NewSignature, args, kwargs);
    var t :- ConvertNewArgs(vs);
    assert forall j, v :: 0 <= j < |NewSignature| && Supplied(NewSignature, args, kwargs, j, v) ==> NewComponent(j, v, t) by {
      forall j, v | 0 <= j < |NewSignature| && Supplied(NewSignature, args, kwargs, j, v) ensures NewComponent(j, v, t) {
        BoundIsSupplied(NewSignature, args, kwargs, j, v);
      }
    }
    Success(t)
  }

  /** The Python constructor as called from Python: argument binding, conversion, then `NewS3Client`. */
  function NewOfCall<E>(args: seq<PyValue>, kwargs: Kwargs, create: S3ClientConfig -> Result<E, string>)
    : (r: Result<MountpointS3Client<E>, NewError>)
    ensures NewArgsOfCall(args, kwargs).Failure? ==> r == Failure(BadCall(NewArgsOfCall(args, kwargs).error))
    ensures NewArgsOfCall(args, kwargs).Success? ==>
              var t := NewArgsOfCall(args, kwargs).value;
              var engine := create(EngineConfig(t.0, t.1, t.2, t.3, t.4));
              && (r.Success? <==> engine.Success?)
              && (r.Failure? ==> r.error == EngineFailed(ConstructionError(engine.error)))
              && (r.Success? ==> r.value.client == engine.value && GetNewArgs(r.value) == t)
  {
    match NewArgsOfCall(args, kwargs)
    case Failure(e) => Failure(BadCall(e))
    case Success(t) =>
      match FromNewArgs(t, create)
      case Failure(e) => Failure(EngineFailed(e))
      case Success(h) => Success(h)
  }

  /** The Python object of an optional string: `None` or a `str`. */
  function OptionalStringObject(v: Option<string>): (o: PyValue)
    ensures forall name :: ExtractOptionalString(name, o) == Success(v)
  {
    match v
    case None => PyNone
    case Some(s) => PyStr(s)
  }

  /** The five configuration values as Python objects, in tuple order. */
  function ToObjects(t: NewArgs): (objects: seq<PyValue>)
    ensures |objects| == 5
    ensures objects[0] == PyStr(t.0) && objects[1] == PyFloat(t.1) && objects[2] == PyInt(t.2)
    ensures objects[3] == OptionalStringObject(t.3) && objects[4] == PyBool(t.4)
  {
    [PyStr(t.0), PyFloat(t.1), PyInt(t.2), OptionalStringObject(t.3), PyBool(t.4)]
  }

  /** `__getnewargs__` as Python sees it: the tuple of objects that pickle stores. */
  function GetNewArgsObjects<E>(h: MountpointS3Client<E>): (objects: seq<PyValue>)
    ensures |objects| == |NewSignature|
    ensures NewArgsOfCall(objects, []) == Success(GetNewArgs(h))
  {
    NewArgsOfObjects(GetNewArgs(h));
    ToObjects(GetNewArgs(h))
  }

  lemma NewSignatureNames()
    ensures DistinctNames(NewSignature)
  {
  }

  /** Converting the objects of a tuple back, through the constructor's signature, gives the tuple. */
  lemma {:induction false} NewArgsOfObjects(t: NewArgs)
    ensures NewArgsOfCall(ToObjects(t), []) == Success(t)
  {
    var objects := ToObjects(t);
    BindPositional(NewSignature, objects);
    assert Bind(NewSignature, objects, []).value == objects;
    assert ConvertNewArgs(objects) == Success(t);
  }

  /**
   * Unpickling round trip: calling the constructor with the objects of
   * `__getnewargs__` hands the engine the original's configuration, and when
   * the engine accepts it, the rebuilt handle has the original's five values.
   */
  lemma {:induction false} UnpickleRebuildsHandle<E, F>(h: MountpointS3Client<E>, create: S3ClientConfig -> Result<F, string>)
    ensures var r := NewOfCall(GetNewArgsObjects(h), [], create);
            && (r.Success? <==> create(EngineConfigOf(h)).Success?)
            && (r.Success? ==> SameConfiguration(r.value, h))
  {
    GetNewArgsRoundTrip(h, create);
  }

  /** Passing the five values by keyword builds the same handle as passing them by position. */
  lemma {:induction false} NewByKeyword(t: NewArgs)
    ensures NewArgsOfCall([], ByName(NewSignature, ToObjects(t))) == Success(t)
  {
    NewSignatureNames();
    BindByName(NewSignature, ToObjects(t));
    NewArgsOfObjects(t);
  }

  /** A constructor call with the region alone takes every other value from the defaults. */
  lemma {:induction false} NewDefaults(region: string)
    ensures NewArgsOfCall([PyStr(region)], [])
            == Success((region, DefaultThroughputTargetGbps, DefaultPartSize, DefaultProfile, DefaultNoSignRequest))
  {
    BindPositional(NewSignature, [PyStr(region)]);
  }

  /** A region by position and a profile by keyword: the profile is used, every other value is the default. */
  lemma {:induction false} NewWithProfileKeyword(region: string, profile: string)
    ensures NewArgsOfCall([PyStr(region)], [("profile", PyStr(profile))])
            == Success((region, DefaultThroughputTargetGbps, DefaultPartSize, Some(profile), DefaultNoSignRequest))
  {
    var args, kwargs := [PyStr(region)], [("profile", PyStr(profile))];
    var b := Bind(NewSignature, args, kwargs);
    var slots := Slots(NewSignature, args);
    NewSignatureNames();
    IndexOfOwnName(NewSignature, 3);
    assert NewSignature[3].name == "profile";
    assert ApplyKeywords(NewSignature, slots, kwargs) == Success(slots[3 := Some(PyStr(profile))]);
    assert b.Success?;
    forall j | 0 <= j < |NewSignature| ensures b.value[j] == [PyStr(region), PyFloat(DefaultThroughputTargetGbps),
                                                      PyInt(DefaultPartSize), PyStr(profile), PyBool(false)][j]
    {
      if j == 3 {
        assert Supplied(NewSignature, args, kwargs, 3, PyStr(profile));
      } else if j > 0 {
        assert !LandsOn(NewSignature, kwargs, j);
      }
    }
  }

  /** The region is required. */
  lemma NewWithoutRegion()
    ensures NewArgsOfCall([], []) == Failure(MissingRequired(["region"]))
  {
    var noArgs: seq<PyValue> := [];
    var slots := seq(|NewSignature|, i requires 0 <= i < |NewSignature| => if i < |noArgs| then Some(noArgs[i]) else None);
    assert ApplyKeywords(NewSignature, slots, []) == Success(slots);
    assert MissingFrom(NewSignature, slots, 1) == [];
    assert MissingFrom(NewSignature, slots, 0) == ["region"];
  }

  /** The object `v` bound to `get_object`'s parameter `j` converts to a `String`. */
  predicate GetObjectAccepts(j: nat, v: PyValue)
    requires j < |GetObjectSignature|
  {
    ExtractString(GetObjectSignature[j].name, v).Success?
  }

  /** The object `v` bound to `get_object`'s parameter `j` converts to component `j` of `t`. */
  predicate GetObjectComponent(j: nat, v: PyValue, t: (string, string))
    requires j < |GetObjectSignature|
  {
    ExtractString(GetObjectSignature[j].name, v) == Success(if j == 0 then t.0 else t.1)
  }

  /** Converts the bound bucket and key, reporting the first that is not a `str`. */
  function ConvertGetObjectArgs(vs: seq<PyValue>): (r: Result<(string, string), CallError>)
    requires |vs| == |GetObjectSignature|
    ensures r.Success? <==> forall j :: 0 <= j < |GetObjectSignature| ==> GetObjectAccepts(j, vs[j])
    ensures r.Success? ==> forall j :: 0 <= j < |GetObjectSignature| ==> GetObjectComponent(j, vs[j], r.value)
    ensures r.Failure? ==>
              exists j :: 0 <= j < |GetObjectSignature| && !GetObjectAccepts(j, vs[j]) &&
                NamesParam(GetObjectSignature, j, r.error) && forall i :: 0 <= i < j ==> GetObjectAccepts(i, vs[i])
  {
    var bucket :- ExtractString("bucket", vs[0]);
    var key :- ExtractString("key", vs[1]);
    Success((bucket, key))
  }

  /**
   * `get_object`'s arguments: bucket and key, both required strings, each
   * taken from the object the call supplies for it, by position or by keyword.
   */
  function GetObjectArgsOfCall(args: seq<PyValue>, kwargs: Kwargs): (r: Result<(string, string), CallError>)
    ensures var b := Bind(GetObjectSignature, args, kwargs);
            && (b.Failure? ==> r == Failure(b.error))
            && (b.Success? ==> r == ConvertGetObjectArgs(b.value))
    ensures r.Success? ==>
              forall j, v :: 0 <= j < |GetObjectSignature| && Supplied(GetObjectSignature, args, kwargs, j, v) ==>
                GetObjectComponent(j, v, r.value)
  {
    var vs :- Bind(GetObjectSignature, args, kwargs);
    var t :- ConvertGetObjectArgs(vs);
    assert forall j, v :: 0 <= j < |GetObjectSignature| && Supplied(GetObjectSignature, args, kwargs, j, v) ==>
             GetObjectComponent(j, v, t) by {
      forall j, v | 0 <= j < |GetObjectSignature| && Supplied(GetObjectSignature, args, kwargs, j, v)
        ensures GetObjectComponent(j, v, t)
      {
        BoundIsSupplied(GetObjectSignature, args, kwargs, j, v);
      }
    }
    Success(t)
  }

  /** Bucket and key given by position or by keyword reach `get_object` unchanged. */
  lemma {:induction false} GetObjectArgsByPositionOrKeyword(bucket: string, key: string)
    ensures GetObjectArgsOfCall([PyStr(bucket), PyStr(key)], []) == Success((bucket, key))
    ensures GetObjectArgsOfCall([], [("bucket", PyStr(bucket)), ("key", PyStr(key))]) == Success((bucket, key))
  {
    var objects := [PyStr(bucket), PyStr(key)];
    BindByName(GetObjectSignature, objects);
    assert ByName(GetObjectSignature, objects) == [("bucket", PyStr(bucket)), ("key", PyStr(key))];
    assert ConvertGetObjectArgs(objects) == Success((bucket, key));
  }

  /** Both bucket and key are required, and a call that gives neither is refused naming both. */
  lemma GetObjectArgsRequired()
    ensures GetObjectArgsOfCall([], []) == Failure(MissingRequired(["bucket", "key"]))
  {
    var slots := Slots(GetObjectSignature, []);
    assert ApplyKeywords(GetObjectSignature, slots, []) == Success(slots);
    assert MissingFrom(GetObjectSignature, slots, 2) == [];
    assert MissingFrom(GetObjectSignature, slots, 1) == ["key"];
    assert MissingFrom(GetObjectSignature, slots, 0) == ["bucket", "key"];
    assert Bind(GetObjectSignature, [], []) == Failure(MissingRequired(["bucket", "key"]));
  }

  /** The object `v` bound to `list_objects`'s parameter `j` converts to that parameter's Rust type. */
  predicate ListObjectsAccepts(j: nat, v: PyValue)
    requires j < |ListObjectsSignature|
  {
    if j < 3 then ExtractString(ListObjectsSignature[j].name, v).Success?
    else ExtractUsize("max_keys", v).Success?
  }

  /** The object `v` bound to `list_objects`'s parameter `j` converts to component `j` of `t`. */
  predicate ListObjectsComponent(j: nat, v: PyValue, t: (string, string, string, Usize))
    requires j < |ListObjectsSignature|
  {
    if j == 0 then ExtractString("bucket", v) == Success(t.0)
    else if j == 1 then ExtractString("prefix", v) == Success(t.1)
    else if j == 2 then ExtractString("delimiter", v) == Success(t.2)
    else ExtractUsize("max_keys", v) == Success(t.3)
  }

  /** Converts the bound listing arguments, reporting the first that does not convert. */
  function ConvertListObjectsArgs(vs: seq<PyValue>): (r: Result<(string, string, string, Usize), CallError>)
    requires |vs| == |ListObjectsSignature|
    ensures r.Success? <==> forall j :: 0 <= j < |ListObjectsSignature| ==> ListObjectsAccepts(j, vs[j])
    ensures r.Success? ==> forall j :: 0 <= j < |ListObjectsSignature| ==> ListObjectsComponent(j, vs[j], r.value)
    ensures r.Failure? ==>
              exists j :: 0 <= j < |ListObjectsSignature| && !ListObjectsAccepts(j, vs[j]) &&
                NamesParam(ListObjectsSignature, j, r.error) && forall i :: 0 <= i < j ==> ListObjectsAccepts(i, vs[i])
  {
    var bucket :- ExtractString("bucket", vs[0]);
    var prefix :- ExtractString("prefix", vs[1]);
    var delimiter :- ExtractString("delimiter", vs[2]);
    var maxKeys :- ExtractUsize("max_keys", vs[3]);
    Success((bucket, prefix, delimiter, maxKeys))
  }

  /**
   * `list_objects`'s arguments: bucket, prefix, delimiter and page size, each
   * taken from the object the call supplies for it, or from its default.
   */
  function ListObjectsArgsOfCall(args: seq<PyValue>, kwargs: Kwargs): (r: Result<(string, string, string, Usize), CallError>)
    ensures var b := Bind(ListObjectsSignature, args, kwargs);
            && (b.Failure? ==> r == Failure(b.error))
            && (b.Success? ==> r == ConvertListObjectsArgs(b.value))
    ensures r.Success? ==>
              forall j, v :: 0 <= j < |ListObjectsSignature| && Supplied(ListObjectsSignature, args, kwargs, j, v) ==>
                ListObjectsComponent(j, v, r.value)
  {
    var vs :- Bind(ListObjectsSignature, args, kwargs);
    var t :- ConvertListObjectsArgs(vs);
    assert forall j, v :: 0 <= j < |ListObjectsSignature| && Supplied(ListObjectsSignature, args, kwargs, j, v) ==>
             ListObjectsComponent(j, v, t) by {
      forall j, v | 0 <= j < |ListObjectsSignature| && Supplied(ListObjectsSignature, args, kwargs, j, v)
        ensures ListObjectsComponent(j, v, t)
      {
        BoundIsSupplied(ListObjectsSignature, args, kwargs, j, v);
      }
    }
    Success(t)
  }

  /** A listing of a bucket alone has no prefix, no delimiter and pages of at most 1000 keys. */
  lemma {:induction false} ListObjectsDefaults(bucket: string)
    ensures ListObjectsArgsOfCall([PyStr(bucket)], []) == Success((bucket, "", "", 1000))
  {
    BindPositional(ListObjectsSignature, [PyStr(bucket)]);
  }

  /** The object `v` bound to `put_object`'s parameter `j` converts to that parameter's Rust type. */
  predicate PutObjectAccepts(j: nat, v: PyValue)
    requires j < |PutObjectSignature|
  {
    if j < 2 then ExtractString(PutObjectSignature[j].name, v).Success?
    else ExtractOptionalString("storage_class", v).Success?
  }

  /** The object `v` bound to `put_object`'s parameter `j` converts to the bucket, the key or the storage class of `t`. */
  predicate PutObjectComponent<R>(j: nat, v: PyValue, t: (string, string, PutObjectParams<R>))
    requires j < |PutObjectSignature|
  {
    if j == 0 then ExtractString("bucket", v) == Success(t.0)
    else if j == 1 then ExtractString("key", v) == Success(t.1)
    else ExtractOptionalString("storage_class", v) == Success(t.2.storageClass)
  }

  /** Converts the bound upload arguments and derives the upload parameters from the defaults. */
  function ConvertPutObjectArgs<R>(vs: seq<PyValue>, defaults: PutObjectParams<R>)
    : (r: Result<(string, string, PutObjectParams<R>), CallError>)
    requires |vs| == |PutObjectSignature|
    ensures r.Success? <==> forall j :: 0 <= j < |PutObjectSignature| ==> PutObjectAccepts(j, vs[j])
    ensures r.Success? ==> forall j :: 0 <= j < |PutObjectSignature| ==> PutObjectComponent(j, vs[j], r.value)
    ensures r.Success? ==> r.value.2.rest == defaults.rest
    ensures r.Failure? ==>
              exists j :: 0 <= j < |PutObjectSignature| && !PutObjectAccepts(j, vs[j]) &&
                NamesParam(PutObjectSignature, j, r.error) && forall i :: 0 <= i < j ==> PutObjectAccepts(i, vs[i])
  {
    var bucket :- ExtractString("bucket", vs[0]);
    var key :- ExtractString("key", vs[1]);
    var storageClass :- ExtractOptionalString("storage_class", vs[2]);
    Success((bucket, key, PutParams(defaults, storageClass)))
  }

  /**
   * `put_object`: bucket, key and the upload parameters, which are the
   * library's defaults with the storage class set to the object the call
   * supplies for `storage_class`, by position, by keyword or as `None`.
   */
  function PutObjectArgsOfCall<R>(args: seq<PyValue>, kwargs: Kwargs, defaults: PutObjectParams<R>)
    : (r: Result<(string, string, PutObjectParams<R>), CallError>)
    ensures var b := Bind(PutObjectSignature, args, kwargs);
            && (b.Failure? ==> r == Failure(b.error))
            && (b.Success? ==> r == ConvertPutObjectArgs(b.value, defaults))
    ensures r.Success? ==>
              forall j, v :: 0 <= j < |PutObjectSignature| && Supplied(PutObjectSignature, args, kwargs, j, v) ==>
                PutObjectComponent(j, v, r.value)
    ensures r.Success? ==> r.value.2.rest == defaults.rest
  {
    var vs :- Bind(PutObjectSignature, args, kwargs);
    var t :- ConvertPutObjectArgs(vs, defaults);
    assert forall j, v :: 0 <= j < |PutObjectSignature| && Supplied(PutObjectSignature, args, kwargs, j, v) ==>
             PutObjectComponent(j, v, t) by {
      forall j, v | 0 <= j < |PutObjectSignature| && Supplied(PutObjectSignature, args, kwargs, j, v)
        ensures PutObjectComponent(j, v, t)
      {
        BoundIsSupplied(PutObjectSignature, args, kwargs, j, v);
      }
    }
    Success(t)
  }

  /** Without a storage class, the upload uses the defaults with no storage class set. */
  lemma {:induction false} PutObjectDefaults<R>(bucket: string, key: string, defaults: PutObjectParams<R>)
    ensures PutObjectArgsOfCall([PyStr(bucket), PyStr(key)], [], defaults)
            == Success((bucket, key, defaults.(storageClass := None)))
  {
    BindPositional(PutObjectSignature, [PyStr(bucket), PyStr(key)]);
  }

  /** Bucket and key by position and a storage class by keyword: the upload uses that storage class. */
  lemma {:induction false} PutObjectWithStorageClassKeyword<R>(bucket: string, key: string, storageClass: string,
                                                             defaults: PutObjectParams<R>)
    ensures PutObjectArgsOfCall([PyStr(bucket), PyStr(key)], [("storage_class", PyStr(storageClass))], defaults)
            == Success((bucket, key, defaults.(storageClass := Some(storageClass))))
  {
    var args, kwargs := [PyStr(bucket), PyStr(key)], [("storage_class", PyStr(storageClass))];
    assert IndexOf(PutObjectSignature, "storage_class") == Some(2);
    BindSucceedsIff(PutObjectSignature, args, kwargs);
    assert LandsOn(PutObjectSignature, kwargs, 2);
    assert Supplied(PutObjectSignature, args, kwargs, 2, PyStr(storageClass));
  }
}
