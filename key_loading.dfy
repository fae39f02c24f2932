/** Key material loading for one signature scheme of one remote: the remote
    options `verification-<scheme>-file` and `verification-<scheme>-key`,
    and how the keys they name are merged into the scheme's key store. */
module KeyLoading {
  import opened SignTypes

  const OptionPrefix: string := "verification-"

  /** The remote option name for a scheme and a suffix ("file" or "key"). */
  function RemoteOptionKey(scheme: string, suffix: string): string
  {
    OptionPrefix + scheme + "-" + suffix
  }

  /** Recovers the scheme name from an option name with a known suffix. */
  function SchemeOfOptionKey(key: string, suffix: string): Option<string>
  {
    var n := |OptionPrefix|;
    if |key| >= n + 1 + |suffix|
       && key[..n] == OptionPrefix
       && key[|key| - |suffix| - 1..] == "-" + suffix
    then Some(key[n..|key| - |suffix| - 1])
    else None
  }

  /** An option name determines its scheme once the suffix is known. */
  lemma {:induction false} OptionKeyRoundTrip(scheme: string, suffix: string)
    ensures SchemeOfOptionKey(RemoteOptionKey(scheme, suffix), suffix) == Some(scheme)
  {
    var key := RemoteOptionKey(scheme, suffix);
    var n := |OptionPrefix|;
    assert key == OptionPrefix + (scheme + ("-" + suffix));
    assert key[..n] == OptionPrefix;
    assert key[n..] == scheme + ("-" + suffix);
    assert key[|key| - |suffix| - 1..] == "-" + suffix;
    assert key[n..|key| - |suffix| - 1] == scheme;
  }

  /** No scheme's key-file option can be read as any scheme's inline-key
      option; the two lookups never alias. */
  lemma {:induction false} FileAndKeyOptionsDistinct(a: string, b: string)
    ensures RemoteOptionKey(a, "file") != RemoteOptionKey(b, "key")
  {
    var f, k := RemoteOptionKey(a, "file"), RemoteOptionKey(b, "key");
    assert f[|f| - 1] == 'e';
    assert k[|k| - 1] == 'y';
  }

  /** get_signapi_remote_option: one lookup of the scheme's option. */
  function SignapiRemoteOption(o: Oracles, remote: string, scheme: string, suffix: string)
    : Result<Option<string>, ForeignError>
  {
    o.remoteOption(remote, RemoteOptionKey(scheme, suffix))
  }

  /** The outcome of loading keys and the key store afterwards. */
  datatype KeyLoad = KeyLoad(outcome: Outcome<Error>, store: seq<PublicKey>)

  /** The effect of _signapi_load_public_keys on a store that holds `prior`:
      no configuration leaves it alone, a key file is loaded first and is
      fatal when it fails, an inline key is then appended. */
  function LoadKeys(o: Oracles, remote: string, scheme: string, prior: seq<PublicKey>): (r: KeyLoad)
    // keys already in the store are never dropped or replaced
    ensures |prior| <= |r.store| && r.store[..|prior|] == prior
    // "No keys found" is never the answer
    ensures r.outcome.Fail? ==> r.outcome.error.cause != NoKeysFound
    // every error is fresh from this function or a lookup error, with no prefix
    ensures r.outcome.Fail? ==> r.outcome.error.prefixes == []
  {
    match SignapiRemoteOption(o, remote, scheme, "file")
    case Err(e) => KeyLoad(Fail(Thrown(Foreign(e))), prior)
    case Ok(file) =>
      match SignapiRemoteOption(o, remote, scheme, "key")
      case Err(e) => KeyLoad(Fail(Thrown(Foreign(e))), prior)
      case Ok(inline) =>
        if file.None? && inline.None? then KeyLoad(Pass, prior)
        else
          var fromFile := if file.Some? then o.loadPk(scheme, file.value) else Some([]);
          if fromFile.None? then KeyLoad(Fail(Thrown(KeyFileLoadFailed(scheme, file.value))), prior)
          else
            var afterFile := prior + fromFile.value;
            if inline.None? then KeyLoad(Pass, afterFile)
            else
              match o.addPk(scheme, inline.value)
              case None => KeyLoad(Fail(Thrown(InlineKeyLoadFailed(scheme))), afterFile)
              case Some(k) => KeyLoad(Pass, afterFile + [k])
  }

  /** Neither option set: success, nothing loaded, the scheme keeps its
      default keyring. */
  lemma LoadKeysWithoutConfiguration(o: Oracles, remote: string, scheme: string, prior: seq<PublicKey>)
    requires SignapiRemoteOption(o, remote, scheme, "file") == Ok(None)
    requires SignapiRemoteOption(o, remote, scheme, "key") == Ok(None)
    ensures LoadKeys(o, remote, scheme, prior) == KeyLoad(Pass, prior)
  {
  }

  /** A failed option lookup is passed up unchanged, and the later lookup
      or loading never matters. */
  lemma LoadKeysLookupFailure(o: Oracles, remote: string, scheme: string, prior: seq<PublicKey>)
    requires SignapiRemoteOption(o, remote, scheme, "file").Err?
             || (SignapiRemoteOption(o, remote, scheme, "file").Ok?
                 && SignapiRemoteOption(o, remote, scheme, "key").Err?)
    ensures var e := if SignapiRemoteOption(o, remote, scheme, "file").Err?
                     then SignapiRemoteOption(o, remote, scheme, "file").error
                     else SignapiRemoteOption(o, remote, scheme, "key").error;
            LoadKeys(o, remote, scheme, prior) == KeyLoad(Fail(Thrown(Foreign(e))), prior)
  {
  }

  /** A configured key file that fails to load is fatal: the error names the
      scheme and the path, the store is unchanged, and the inline key is
      never tried (any add_pk gives the same answer). */
  lemma LoadKeysFileFailure(o: Oracles, remote: string, scheme: string, prior: seq<PublicKey>,
                            path: string, addPk: (string, string) -> Option<PublicKey>)
    requires SignapiRemoteOption(o, remote, scheme, "file") == Ok(Some(path))
    requires SignapiRemoteOption(o, remote, scheme, "key").Ok?
    requires o.loadPk(scheme, path).None?
    ensures LoadKeys(o, remote, scheme, prior) == KeyLoad(Fail(Thrown(KeyFileLoadFailed(scheme, path))), prior)
    ensures LoadKeys(o.(addPk := addPk), remote, scheme, prior) == LoadKeys(o, remote, scheme, prior)
  {
  }

  /** After a successful load the store is the prior store, then the file's
      keys when a file is configured, then the inline key when one is
      configured: the inline key is always added, never a replacement. */
  lemma LoadKeysMerge(o: Oracles, remote: string, scheme: string, prior: seq<PublicKey>)
    requires LoadKeys(o, remote, scheme, prior).outcome.Pass?
    ensures SignapiRemoteOption(o, remote, scheme, "file").Ok?
    ensures SignapiRemoteOption(o, remote, scheme, "key").Ok?
    ensures var file := SignapiRemoteOption(o, remote, scheme, "file").value;
            var inline := SignapiRemoteOption(o, remote, scheme, "key").value;
            && (file.Some? ==> o.loadPk(scheme, file.value).Some?)
            && (inline.Some? ==> o.addPk(scheme, inline.value).Some?)
            && LoadKeys(o, remote, scheme, prior).store
               == prior
                  + (if file.Some? then o.loadPk(scheme, file.value).value else [])
                  + (if inline.Some? then [o.addPk(scheme, inline.value).value] else [])
  {
  }

  /** An inline key that add_pk rejects is fatal with an error naming the
      scheme and the inline source; the keys already in the store, and any
      loaded from the key file, stay there. */
  lemma LoadKeysInlineFailure(o: Oracles, remote: string, scheme: string, prior: seq<PublicKey>,
                              text: string)
    requires SignapiRemoteOption(o, remote, scheme, "file").Ok?
    requires SignapiRemoteOption(o, remote, scheme, "key") == Ok(Some(text))
    requires var file := SignapiRemoteOption(o, remote, scheme, "file").value;
             file.Some? ==> o.loadPk(scheme, file.value).Some?
    requires o.addPk(scheme, text).None?
    ensures var file := SignapiRemoteOption(o, remote, scheme, "file").value;
            LoadKeys(o, remote, scheme, prior)
            == KeyLoad(Fail(Thrown(InlineKeyLoadFailed(scheme))),
                       prior + (if file.Some? then o.loadPk(scheme, file.value).value else []))
  {
  }

  /** An inline key with no key file keeps whatever the store already held. */
  lemma LoadKeysInlineOnly(o: Oracles, remote: string, scheme: string, prior: seq<PublicKey>,
                           text: string, k: PublicKey)
    requires SignapiRemoteOption(o, remote, scheme, "file") == Ok(None)
    requires SignapiRemoteOption(o, remote, scheme, "key") == Ok(Some(text))
    requires o.addPk(scheme, text) == Some(k)
    ensures LoadKeys(o, remote, scheme, prior) == KeyLoad(Pass, prior + [k])
  {
  }

  /** The only configuration consulted is the scheme's two options on the
      given remote. */
  lemma LoadKeysReadsOnlyItsOptions(o: Oracles, o': Oracles, remote: string, scheme: string,
                                    prior: seq<PublicKey>)
    requires o'.remoteOption(remote, RemoteOptionKey(scheme, "file")) == o.remoteOption(remote, RemoteOptionKey(scheme, "file"))
    requires o'.remoteOption(remote, RemoteOptionKey(scheme, "key")) == o.remoteOption(remote, RemoteOptionKey(scheme, "key"))
    requires o'.loadPk == o.loadPk && o'.addPk == o.addPk
    ensures LoadKeys(o', remote, scheme, prior) == LoadKeys(o, remote, scheme, prior)
  {
  }

  /** A signature scheme object, as ostree_sign_get_by_name hands out a
      fresh one: its name, where its signatures live in detached metadata,
      and its key store, which key loading changes. */
  class Scheme {
    const name: string
    const metadataKey: string
    const metadataFormat: string
    var keys: seq<PublicKey>

    constructor (name: string, info: SchemeInfo)
      ensures this.name == name
      ensures metadataKey == info.metadataKey && metadataFormat == info.metadataFormat
      ensures keys == []
    {
      this.name := name;
      metadataKey := info.metadataKey;
      metadataFormat := info.metadataFormat;
      keys := [];
    }

    /** _signapi_load_public_keys, step by step as written, including the
        two flags; the replace-keys branch is proved unreachable. */
    method LoadPublicKeys(o: Oracles, remote: string) returns (r: Outcome<Error>)
      modifies this
      ensures KeyLoad(r, keys) == LoadKeys(o, remote, name, old(keys))
    {
      var loadedFromFile := true;
      var loadedInlined := true;

      var file := SignapiRemoteOption(o, remote, name, "file");
      if file.Err? {
        return Fail(Thrown(Foreign(file.error)));
      }
      var inline := SignapiRemoteOption(o, remote, name, "key");
      if inline.Err? {
        return Fail(Thrown(Foreign(inline.error)));
      }

      if file.value.None? && inline.value.None? {
        return Pass;
      }

      if file.value.Some? {
        var loaded := o.loadPk(name, file.value.value);
        if loaded.Some? {
          keys := keys + loaded.value;
          loadedFromFile := true;
        } else {
          return Fail(Thrown(KeyFileLoadFailed(name, file.value.value)));
        }
      }

      if inline.value.Some? {
        if loadedFromFile {
          var added := o.addPk(name, inline.value.value);
          if added.Some? {
            keys := keys + [added.value];
          }
          loadedInlined := added.Some?;
        } else {
          // ostree_sign_set_pk: loadedFromFile is never false here
          assert false;
        }
        if !loadedInlined {
          return Fail(Thrown(InlineKeyLoadFailed(name)));
        }
      }

      if !(loadedFromFile || loadedInlined) {
        return Fail(Thrown(NoKeysFound));
      }
      return Pass;
    }
  }
}
