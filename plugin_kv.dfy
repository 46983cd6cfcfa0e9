/** The plugin's `KV` (plugin-go-grpc/main.go): it stores each value, wrapped in a fixed text,
    in a file named after the key, and logs one line through the host's log helper on every
    `SetLogger`, `Put` and `Get`. The file system is a map from file names to contents. */
module PluginKV {
  import opened GoTypes
  import opened Proto
  import GrpcLogger

  /** The `GRPCLogHelperClient` the plugin holds, seen as the requests sent through it. Each call
      is `GrpcLogger.HelperClientLog`; the outbound RPC is an oracle given to each call. */
  class LogHelperClient {
    ghost var sent: seq<LogRequest>

    constructor ()
      ensures sent == []
    {
      sent := [];
    }

    method Log(level: int64, msg: string, rpc: LogRequest -> Option<Error>) returns (err: Option<Error>)
      modifies this
      ensures var call := GrpcLogger.HelperClientLog(level, msg, rpc);
              sent == old(sent) + [call.request] && err == call.err
    {
      var call := GrpcLogger.HelperClientLog(level, msg, rpc);
      sent := sent + [call.request];
      err := call.err;
    }
  }

  /** How `os.WriteFile` fails: opening (creating, truncating) the file fails and nothing changes;
      or the file was opened and truncated, and then only the first `written` bytes reached it
      (a short write) or all of them did (a failed close). The error is returned either way. */
  datatype WriteFailure = OpenFailed(err: Error) | FailedAfterOpen(err: Error, written: nat)

  /** The first `n` bytes of `data`, or all of them. */
  function WrittenPart(data: Bytes, n: nat): (r: Bytes)
    ensures |r| <= |data| && r == data[..|r|]
    ensures n < |data| ==> |r| == n
  {
    if n < |data| then data[..n] else data
  }

  /** The plugin's working directory. */
  class FileSystem {
    var files: map<string, Bytes>

    constructor (files: map<string, Bytes>)
      ensures this.files == files
    {
      this.files := files;
    }

    /** `os.WriteFile`, with how it fails given as an oracle: a failure touches no file but
        `name`, which it may leave missing, as it was, truncated or partly written. */
    method WriteFile(name: string, data: Bytes, failure: Option<WriteFailure>) returns (err: Option<Error>)
      modifies this
      ensures failure.None? ==> files == old(files)[name := data] && err == None
      ensures failure.Some? ==> files - {name} == old(files) - {name} && err == Some(failure.value.err)
      ensures failure.Some? && failure.value.OpenFailed? ==> files == old(files)
      ensures failure.Some? && failure.value.FailedAfterOpen?
              ==> files == old(files)[name := WrittenPart(data, failure.value.written)]
    {
      match failure
      case None =>
        files := files[name := data];
        return None;
      case Some(OpenFailed(e)) =>
        return Some(e);
      case Some(FailedAfterOpen(e, n)) =>
        files := files[name := WrittenPart(data, n)];
        return Some(e);
    }

    /** `os.ReadFile`: the contents, or a "no such file" error with no data. */
    method ReadFile(name: string) returns (data: Bytes, err: Option<Error>)
      ensures name in files ==> data == files[name] && err == None
      ensures name !in files ==> data == [] && err == Some(NotFound(name))
    {
      if name in files {
        return files[name], None;
      }
      return [], Some(NotFound(name));
    }
  }

  /** The error `os.ReadFile` reports for a missing file. */
  function NotFound(name: string): Error {
    Error("open " + name + ": no such file or directory")
  }

  const ValuePrefix: string := "value ["
  const ValueSuffix: string := "] in plugin-go-grpc"
  const FilePrefix: string := "kv_"

  /** What `Put` stores for a value. */
  function WrapValue(v: Bytes): (r: Bytes)
    ensures |r| == |ValuePrefix| + |v| + |ValueSuffix|
    ensures r[..|ValuePrefix|] == ValuePrefix && r[|r| - |ValueSuffix|..] == ValueSuffix
  {
    ValuePrefix + v + ValueSuffix
  }

  /** Recovers the value from stored contents, or None when they are not a wrapped value. */
  function UnwrapValue(s: Bytes): (r: Option<Bytes>)
    ensures r.Some? ==> |r.value| + |ValuePrefix| + |ValueSuffix| == |s|
  {
    if |s| >= |ValuePrefix| + |ValueSuffix| && s[..|ValuePrefix|] == ValuePrefix
       && s[|s| - |ValueSuffix|..] == ValueSuffix
    then Some(s[|ValuePrefix|..|s| - |ValueSuffix|])
    else None
  }

  /** Every stored value can be read back exactly. */
  lemma UnwrapWrap(v: Bytes)
    ensures UnwrapValue(WrapValue(v)) == Some(v)
  {
    var s := WrapValue(v);
    assert s[|ValuePrefix|..|s| - |ValueSuffix|] == v;
  }

  /** Two values are stored alike only if they are equal. */
  lemma WrapInjective(v: Bytes, w: Bytes)
    requires WrapValue(v) == WrapValue(w)
    ensures v == w
  {
    UnwrapWrap(v);
    UnwrapWrap(w);
  }

  /** The file a key is stored in. */
  function FileName(key: string): (r: string)
    ensures |r| == |FilePrefix| + |key| && r[..|FilePrefix|] == FilePrefix
  {
    FilePrefix + key
  }

  /** Different keys are stored in different files. */
  lemma FileNameInjective(k1: string, k2: string)
    requires FileName(k1) == FileName(k2)
    ensures k1 == k2
  {
    assert k1 == FileName(k1)[|FilePrefix|..];
    assert k2 == FileName(k2)[|FilePrefix|..];
  }

  /** The files after a successful `Put(key, v)`. */
  function StorePut(files: map<string, Bytes>, key: string, v: Bytes): (r: map<string, Bytes>)
    ensures r.Keys == files.Keys + {FileName(key)}
  {
    files[FileName(key) := WrapValue(v)]
  }

  /** What `Get(key)` finds: the stored contents, or None when the file does not exist. */
  function Lookup(files: map<string, Bytes>, key: string): (r: Option<Bytes>)
    ensures r.Some? <==> FileName(key) in files
  {
    if FileName(key) in files then Some(files[FileName(key)]) else None
  }

  /** After `Put(k, v)`, `Get(k)` finds the wrapped value, from which `v` is recovered. */
  lemma GetAfterPut(files: map<string, Bytes>, key: string, v: Bytes)
    ensures Lookup(StorePut(files, key, v), key) == Some(WrapValue(v))
    ensures UnwrapValue(Lookup(StorePut(files, key, v), key).value) == Some(v)
  {
    UnwrapWrap(v);
  }

  /** `Put` on one key leaves what every other key finds unchanged. */
  lemma PutLeavesOtherKeys(files: map<string, Bytes>, key: string, other: string, v: Bytes)
    requires other != key
    ensures Lookup(StorePut(files, key, v), other) == Lookup(files, other)
  {
    if FileName(other) == FileName(key) {
      FileNameInjective(other, key);
    }
  }

  /** A store changed at most at the key's file, as a failed `Put` leaves it, still gives every
      other key what it gave before. */
  lemma FailedPutLeavesOtherKeys(before: map<string, Bytes>, after: map<string, Bytes>, key: string, other: string)
    requires after - {FileName(key)} == before - {FileName(key)}
    requires other != key
    ensures Lookup(after, other) == Lookup(before, other)
  {
    var f := FileName(other);
    assert f != FileName(key) by {
      if f == FileName(key) {
        FileNameInjective(other, key);
      }
    }
    assert f in after <==> f in after - {FileName(key)};
    assert f in before <==> f in before - {FileName(key)};
    if f in after {
      assert after[f] == (after - {FileName(key)})[f];
      assert before[f] == (before - {FileName(key)})[f];
    }
  }

  class KV {
    var logClient: LogHelperClient?
    const fs: FileSystem

    /** `NewKV`: no log helper yet. */
    constructor (fs: FileSystem)
      ensures logClient == null && this.fs == fs
    {
      logClient := null;
      this.fs := fs;
    }

    method Ping() returns (err: Option<Error>)
      ensures err == None
    {
      return None;
    }

    /** The broker id is not used. */
    method Init(brokerId: uint32) returns (err: Option<Error>)
      ensures err == None
    {
      return None;
    }

    /** Keeps the helper and sends one level-0 line through it; succeeds whatever that send
        returns. */
    method SetLogger(log: LogHelperClient, rpc: LogRequest -> Option<Error>) returns (err: Option<Error>)
      modifies this, log
      ensures logClient == log && fs.files == old(fs.files)
      ensures log.sent == old(log.sent) + [LogRequest(0, "This is log message from Plugin.SetLogger()!")]
      ensures err == None
    {
      logClient := log;
      var _ := logClient.Log(0, "This is log message from Plugin.SetLogger()!", rpc);
      return None;
    }

    /** Logs one line, then writes the wrapped value to the key's file. Without a log helper the
        call dereferences a nil interface, so `SetLogger` must have been called first. */
    method Put(key: string, value: Bytes, rpc: LogRequest -> Option<Error>, writeFailure: Option<WriteFailure>)
      returns (err: Option<Error>)
      requires logClient != null
      modifies logClient, fs
      ensures logClient.sent == old(logClient.sent) + [LogRequest(0, "This is log message from Plugin.Put()!")]
      ensures writeFailure.None? ==> fs.files == StorePut(old(fs.files), key, value) && err == None
      ensures writeFailure.Some? ==> fs.files - {FileName(key)} == old(fs.files) - {FileName(key)}
                                     && err == Some(writeFailure.value.err)
      ensures writeFailure.Some? && writeFailure.value.OpenFailed? ==> fs.files == old(fs.files)
      ensures writeFailure.Some? && writeFailure.value.FailedAfterOpen?
              ==> fs.files == old(fs.files)[FileName(key) := WrittenPart(WrapValue(value), writeFailure.value.written)]
    {
      var _ := logClient.Log(0, "This is log message from Plugin.Put()!", rpc);
      var wrapped := WrapValue(value);
      err := fs.WriteFile(FileName(key), wrapped, writeFailure);
    }

    /** Logs one line, then reads the key's file. */
    method Get(key: string, rpc: LogRequest -> Option<Error>) returns (data: Bytes, err: Option<Error>)
      requires logClient != null
      modifies logClient
      ensures logClient.sent == old(logClient.sent) + [LogRequest(0, "This is log message from Plugin.Get()!")]
      ensures Lookup(fs.files, key).Some? ==> data == Lookup(fs.files, key).value && err == None
      ensures Lookup(fs.files, key).None? ==> data == [] && err == Some(NotFound(FileName(key)))
    {
      var _ := logClient.Log(0, "This is log message from Plugin.Get()!", rpc);
      data, err := fs.ReadFile(FileName(key));
    }
  }
}
