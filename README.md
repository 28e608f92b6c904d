# MountpointS3Client handle: a Dafny model

This project models the client handle `MountpointS3Client` of the S3 dataset
client (`s3dataset_s3_client/rust/src/mountpoint_s3_client.rs`). The handle is
a frozen Python class. It holds five configuration values and a shared engine
client:

- `region`
- `throughput_target_gbps`
- `part_size`
- `profile`
- `no_sign_request`

The model covers these parts:

- Construction. The Python constructor derives the engine configuration, asks
  the engine to create a client (this may fail), and stores the five values
  unchanged.
- Credential selection (`auth_config`). Unsigned requests win over a named
  profile, and a named profile wins over the ambient default.
- Pickling. `__getnewargs__` returns the flat 5-tuple from which the handle is
  rebuilt.
- Upload parameters. `put_object` takes the library defaults and replaces only
  the storage class.
- Signatures. The `#[pyo3(signature = …)]` declarations decide how a Python call
  binds its arguments: positional first, then keywords, then defaults. They also
  decide how each bound object converts to the Rust parameter type.

The model is pure. The handle is an immutable datatype and no operation returns
an updated one, which is how the frozen class is modelled: every field keeps
its constructed value.

Modules:

- `Wrappers` (`wrappers.dfy`): Option and Result.
- `RustTypes` (`rust_types.dfy`):
  - `usize` as a 64-bit subset type;
  - `f64` as its IEEE 754 bit pattern, compared only for equality, since the
    handle never computes with it.
- `Auth` (`auth.dfy`): `auth_config` and a reference definition of its
  precedence.
- `S3Client` (`s3_client.dfy`): the handle, its constructors, the engine
  configuration, `__getnewargs__` and the upload parameters.
- `PythonCall` (`python_call.dfy`): binding a call's arguments to a signature
  with defaults.
- `PyMethods` (`py_methods.dfy`):
  - the four method signatures;
  - argument conversion;
  - the unpickling path: the objects returned by `__getnewargs__`, passed back
    through the constructor's signature, give the original configuration.

Foreign code the handle calls becomes a parameter or an opaque value:

- The engine's constructor `S3CrtClient::new` is the parameter
  `create: S3ClientConfig -> Result<E, string>`. Its failure is the construction
  error.
- The engine client is a type parameter.
- `EndpointConfig::new(region)` is a record that holds the region.
- The library's `PutObjectParams` fields other than `storage_class` are an opaque
  type parameter. Their defaults are passed in.

The handle validates neither `throughput_target_gbps` nor `part_size`
(`mountpoint_s3_client.rs:33-70`). Only the engine's constructor (`create`) can
refuse them. `get_object` (lines 72-78) checks nothing itself and only
delegates.

## Model

| member | source | states |
|---|---|---|
| `Auth.AuthConfig` | s3dataset_s3_client/rust/src/mountpoint_s3_client.rs:142-150 | the result is `NoSigning` iff `no_sign_request`; `Profile` iff signing is on and a profile is given, and it carries exactly that name; `Default` iff signing is on and no profile is given |
| `Auth.Applicable` | s3dataset_s3_client/rust/src/mountpoint_s3_client.rs:142-150 | the credential sources that apply, highest precedence first: no-signing iff requested, a profile iff given, and always the ambient default, last |
| `Auth.AuthConfigIsHighestPrecedence` | s3dataset_s3_client/rust/src/mountpoint_s3_client.rs:142-150 | `auth_config` chooses the applicable source of highest precedence |
| `Auth.NoSigningIgnoresProfile` | s3dataset_s3_client/rust/src/mountpoint_s3_client.rs:142-144 | with `no_sign_request`, the result is `NoSigning` whatever the profile, so the profile is never consulted |
| `Auth.ProfileComesFromArgument` | s3dataset_s3_client/rust/src/mountpoint_s3_client.rs:145-149 | the result is `Profile(name)` exactly when signing is on and the profile argument is `Some(name)` |
| `S3Client.New` | s3dataset_s3_client/rust/src/mountpoint_s3_client.rs:117-139 | the crate-internal constructor stores the five values and the engine client unchanged |
| `S3Client.EngineConfig` | s3dataset_s3_client/rust/src/mountpoint_s3_client.rs:47-59 | the engine configuration has user-agent prefix `"pytorch-loader;mountpoint"`, the throughput target and part size unchanged, credentials from `auth_config`, and an endpoint for the given region |
| `S3Client.EngineConfigOf` | s3dataset_s3_client/rust/src/mountpoint_s3_client.rs:47-59 | the engine configuration of a handle is built from its stored region, throughput, part size and credentials |
| `S3Client.EngineConfigIgnoresProfileWhenUnsigned` | s3dataset_s3_client/rust/src/mountpoint_s3_client.rs:47-58 | with unsigned requests, the engine configuration is the same for every profile, and its credentials are `NoSigning` |
| `S3Client.NewS3Client` | s3dataset_s3_client/rust/src/mountpoint_s3_client.rs:33-70 | construction succeeds iff the engine accepts the derived configuration; a refusal becomes a construction error with the engine's message; on success the five values are stored unchanged beside the engine's client |
| `S3Client.GetNewArgs` | s3dataset_s3_client/rust/src/mountpoint_s3_client.rs:104-114 | `__getnewargs__` is `(region, throughput_target_gbps, part_size, profile, no_sign_request)`, in the constructor's parameter order |
| `S3Client.FromNewArgs` | s3dataset_s3_client/rust/src/mountpoint_s3_client.rs:34-41 | a handle rebuilt from a tuple gives that same tuple back from `__getnewargs__` |
| `S3Client.GetNewArgsRoundTrip` | s3dataset_s3_client/rust/src/mountpoint_s3_client.rs:33-114 | rebuilding from `__getnewargs__` gives the engine the original's configuration; when the engine accepts it, the new handle's five values equal the original's |
| `S3Client.GetNewArgsDeterminesConfiguration` | s3dataset_s3_client/rust/src/mountpoint_s3_client.rs:15-28 | two handles have equal tuples iff their five configuration values are equal, so no other state takes part |
| `S3Client.SameConfigurationSameEngineConfig` | s3dataset_s3_client/rust/src/mountpoint_s3_client.rs:47-59 | handles with equal configuration derive equal engine configurations |
| `S3Client.PutParams` | s3dataset_s3_client/rust/src/mountpoint_s3_client.rs:98-99 | the upload parameters take the storage class from the caller and every other setting from the defaults |
| `S3Client.PutParamsWithoutStorageClass` | s3dataset_s3_client/rust/src/mountpoint_s3_client.rs:98-99 | when the defaults set no storage class, `put_object` without one hands the engine exactly the defaults |
| `PythonCall.ApplyKeywords` | s3dataset_s3_client/rust/src/mountpoint_s3_client.rs:34 | each accepted keyword lands on a slot that was unbound and gets its value; bound slots are kept; a refusal is an unknown keyword or one whose parameter is already bound |
| `PythonCall.ApplyKeywordsFrame` | s3dataset_s3_client/rust/src/mountpoint_s3_client.rs:34 | keyword arguments leave unchanged every slot that none of them lands on |
| `PythonCall.ApplyKeywordsDistinct` | s3dataset_s3_client/rust/src/mountpoint_s3_client.rs:34 | an accepted call names no parameter twice by keyword |
| `PythonCall.ApplyKeywordsRefusal` | s3dataset_s3_client/rust/src/mountpoint_s3_client.rs:34 | a refused call has a keyword that names no parameter, or names one already bound by position or by an earlier keyword |
| `PythonCall.ApplyKeywordsAccepts` | s3dataset_s3_client/rust/src/mountpoint_s3_client.rs:34 | keyword arguments with distinct names, each naming a parameter whose slot is still unbound, are all accepted |
| `PythonCall.MissingFrom` | s3dataset_s3_client/rust/src/mountpoint_s3_client.rs:34 | the list is empty iff every parameter is bound or has a default; it names every unbound parameter without a default, and only such parameters |
| `PythonCall.Bind` | s3dataset_s3_client/rust/src/mountpoint_s3_client.rs:34 | a call with more positional arguments than parameters is refused; a successful call binds one value per parameter: positional arguments in order, keyword arguments by name, and the default for every parameter neither supplies; a missing-argument error names every required parameter that neither a positional nor a keyword argument supplies, and only those |
| `PythonCall.BindSucceedsIff` | s3dataset_s3_client/rust/src/mountpoint_s3_client.rs:34 | a call binds iff it has at most as many positional arguments as parameters, every keyword names a parameter after the positional ones, no keyword repeats, and every later parameter no keyword names has a default |
| `PythonCall.BoundIsSupplied` | s3dataset_s3_client/rust/src/mountpoint_s3_client.rs:34 | in a call that binds, the value of each parameter is exactly the object the call supplies for it: positional, keyword, or default |
| `PythonCall.BindPositional` | s3dataset_s3_client/rust/src/mountpoint_s3_client.rs:34 | a positional-only call succeeds iff every parameter after the given arguments has a default, and then those parameters take their defaults |
| `PythonCall.BindByName` | s3dataset_s3_client/rust/src/mountpoint_s3_client.rs:34 | with distinct parameter names, passing every value by keyword binds the same values as passing them by position |
| `PyMethods.ExtractString` | s3dataset_s3_client/rust/src/mountpoint_s3_client.rs:36 | a `String` parameter accepts exactly a Python `str`, unchanged; anything else is a type error naming the parameter |
| `PyMethods.ExtractF64` | s3dataset_s3_client/rust/src/mountpoint_s3_client.rs:37 | an `f64` parameter accepts a Python `float` and keeps its value |
| `PyMethods.ExtractUsize` | s3dataset_s3_client/rust/src/mountpoint_s3_client.rs:38 | a `usize` parameter accepts an `int` in `[0, 2^64)` (or a `bool` as 0/1); an out-of-range `int` is an overflow, and anything else a type error |
| `PyMethods.ExtractOptionalString` | s3dataset_s3_client/rust/src/mountpoint_s3_client.rs:39 | an `Option<String>` parameter takes `None` to `None` and a `str` to `Some` of it, and refuses anything else |
| `PyMethods.ExtractBool` | s3dataset_s3_client/rust/src/mountpoint_s3_client.rs:40 | a `bool` parameter accepts exactly a Python `bool` |
| `PyMethods.ConvertNewArgs` | s3dataset_s3_client/rust/src/mountpoint_s3_client.rs:34-41 | the five bound objects convert iff each converts to its parameter's type, and then each gives its tuple component; otherwise the error names the first parameter that does not convert |
| `PyMethods.NewArgsOfCall` | s3dataset_s3_client/rust/src/mountpoint_s3_client.rs:34-41 | a binding failure is the call's error; otherwise the call succeeds iff every bound object converts; every object the call supplies for a parameter (by position, by keyword, or as the default) converts to that parameter's component of the tuple |
| `PyMethods.NewOfCall` | s3dataset_s3_client/rust/src/mountpoint_s3_client.rs:33-70 | a refused call raises its argument error; once the arguments convert, the handle is built iff the engine accepts the derived configuration, a refusal carries the engine's message, and the handle holds the engine's client and exactly the converted tuple |
| `PyMethods.OptionalStringObject` | s3dataset_s3_client/rust/src/mountpoint_s3_client.rs:110 | the Python object of the profile converts back to the same optional string |
| `PyMethods.ToObjects` | s3dataset_s3_client/rust/src/mountpoint_s3_client.rs:106-112 | the five values become, in tuple order, a `str`, a `float`, an `int`, the profile as `None` or a `str`, and a `bool` |
| `PyMethods.GetNewArgsObjects` | s3dataset_s3_client/rust/src/mountpoint_s3_client.rs:104-114 | the pickled tuple has one object per constructor parameter, and the constructor's signature converts it back to the handle's own tuple |
| `PyMethods.NewSignatureNames` | s3dataset_s3_client/rust/src/mountpoint_s3_client.rs:34 | the constructor's parameter names are distinct |
| `PyMethods.NewArgsOfObjects` | s3dataset_s3_client/rust/src/mountpoint_s3_client.rs:34-41 | converting a tuple's objects back through the constructor's signature gives the same tuple |
| `PyMethods.UnpickleRebuildsHandle` | s3dataset_s3_client/rust/src/mountpoint_s3_client.rs:33-114 | calling the constructor with `__getnewargs__`'s objects gives the engine the original configuration; on success the handle has the original's five values |
| `PyMethods.NewByKeyword` | s3dataset_s3_client/rust/src/mountpoint_s3_client.rs:34 | passing the five values by keyword gives the same tuple as passing them by position |
| `PyMethods.NewDefaults` | s3dataset_s3_client/rust/src/mountpoint_s3_client.rs:34 | a call with only a region gets throughput `10.0`, part size 8388608, no profile and signing on |
| `PyMethods.NewWithProfileKeyword` | s3dataset_s3_client/rust/src/mountpoint_s3_client.rs:34 | a region by position and `profile=` by keyword give that profile, with every other value the default |
| `PyMethods.NewWithoutRegion` | s3dataset_s3_client/rust/src/mountpoint_s3_client.rs:34-36 | a call without arguments is refused for the missing `region` alone |
| `PyMethods.GetObjectArgsOfCall` | s3dataset_s3_client/rust/src/mountpoint_s3_client.rs:72-76 | a binding failure is the call's error; otherwise the call succeeds iff both bound objects are `str`; the bucket and key are the strings the call supplies, by position or by keyword |
| `PyMethods.ConvertGetObjectArgs` | s3dataset_s3_client/rust/src/mountpoint_s3_client.rs:72-76 | the bound bucket and key convert iff both are `str`; otherwise the error names the first that is not |
| `PyMethods.GetObjectArgsByPositionOrKeyword` | s3dataset_s3_client/rust/src/mountpoint_s3_client.rs:72-76 | bucket and key given by position, or by keyword, reach `get_object` unchanged |
| `PyMethods.GetObjectArgsRequired` | s3dataset_s3_client/rust/src/mountpoint_s3_client.rs:72-76 | a call without arguments is refused, naming both `bucket` and `key` as missing |
| `PyMethods.ListObjectsArgsOfCall` | s3dataset_s3_client/rust/src/mountpoint_s3_client.rs:80-86 | a binding failure is the call's error; otherwise the call succeeds iff every bound object converts; bucket, prefix, delimiter and `max_keys` are what the call supplies for them (by position, by keyword, or as the default) |
| `PyMethods.ConvertListObjectsArgs` | s3dataset_s3_client/rust/src/mountpoint_s3_client.rs:80-86 | the four bound objects convert iff each converts to its type, three strings and a `usize`; otherwise the error names the first that does not |
| `PyMethods.ListObjectsDefaults` | s3dataset_s3_client/rust/src/mountpoint_s3_client.rs:80 | a listing call with only a bucket has prefix `""`, delimiter `""` and `max_keys` 1000 |
| `PyMethods.PutObjectArgsOfCall` | s3dataset_s3_client/rust/src/mountpoint_s3_client.rs:91-101 | a binding failure is the call's error; bucket and key are the strings the call supplies; the upload parameters keep the defaults' other settings, and their storage class is what the call supplies for `storage_class` (by position, by keyword, or `None`) |
| `PyMethods.ConvertPutObjectArgs` | s3dataset_s3_client/rust/src/mountpoint_s3_client.rs:91-101 | the bound objects convert iff bucket and key are `str` and the storage class is `None` or a `str`; the parameters keep the defaults' other settings |
| `PyMethods.PutObjectDefaults` | s3dataset_s3_client/rust/src/mountpoint_s3_client.rs:91-99 | without a storage class, the upload parameters are the defaults with no storage class |
| `PyMethods.PutObjectWithStorageClassKeyword` | s3dataset_s3_client/rust/src/mountpoint_s3_client.rs:91-99 | bucket and key by position and `storage_class` by keyword give the defaults with that storage class |

## Left out

- The `get_object`, `list_objects` and `put_object` delegation to the inner client, and the download, listing and upload streams. Their implementations are not part of this model. Only the argument binding of these methods and the derivation of the upload parameters are modelled.
- `S3CrtClient::new` is a foreign constructor. It is the parameter `create`, which may fail for any reason.
- The internals of `EndpointConfig::new` and of the `S3ClientConfig` builder are foreign library code. The endpoint is a record that holds the region.
- The library's `PutObjectParams` fields other than `storage_class` are opaque, and `PutObjectParams::default()` is a parameter.
- The conversion of engine errors into Python exceptions (`python_exception`) is not modelled. The model keeps the engine's message.
- Python exception messages are not modelled. When one call has several binding errors, the model reports the first one in this order: too many positional arguments, then keyword arguments in the order given, then missing arguments.
- Python objects are limited to `None`, `bool`, `int`, `float` and `str`. Subclasses and the `__index__`/`__float__` conversion protocols are not modelled.
- `PyMethods.ExtractF64`: the interpreter converts a Python `int` to a float for an `f64` parameter. The model refuses an `int` there, because that conversion involves floating-point rounding.
- Floating-point behaviour of `throughput_target_gbps` is not modelled. The value is only stored, returned and forwarded, so it is kept as a bit pattern.
- `usize` is taken to be 64 bits wide.
- `S3Client.New`: the handle keeps the engine client wrapped in the inner adapter (`Arc::new(MountpointS3ClientInnerImpl::new(client))`, line 137). The model stores the engine value itself, so the adapter layer and the sharing are not modelled.
- `PyMethods.ExtractString`: Dafny characters exclude lone surrogates, so a Python `str` that contains one cannot be represented. The model therefore does not capture the `UnicodeEncodeError` that `String` conversion raises for such a string.
- The shared `Arc` and its `Send`/`Sync` bounds are not modelled, and neither is the release of the interpreter lock while waiting on the engine. All of these are concurrency, which this model does not cover.
- `s3torchconnector/tst/unit/test_s3mapdataset.py` tests the dataset class against a mock client. Neither of those is part of this model.
