/** Shared vocabulary of the commit verification engine: failure-compatible
    wrappers, the structured error, detached metadata, and the foreign
    collaborators (remote configuration, signature schemes, the OpenPGP
    engine) gathered into one record of uninterpreted functions. */
module SignTypes {

  datatype Option<+T> = None | Some(value: T)

  datatype Result<+T, +E> = Ok(value: T) | Err(error: E)

  datatype Outcome<+E> = Pass | Fail(error: E)

  type Bytes = seq<bv8>

  /** An error produced by code outside this core (the option parser, a
      scheme's crypto, the OpenPGP engine); its content is opaque here. */
  datatype ForeignError = ForeignError(domain: string, code: int, message: string)

  /** A context prefix added to an error on its way up, outermost first. */
  datatype Prefix =
    | CommitContext(checksum: string)       // "Commit <checksum>"
    | CantVerifyCommit                      // "Can't verify commit"
    | OtherInvalidSignatures(count: nat)    // "(<count> other invalid signatures)"

  /** The innermost reason of a failure. */
  datatype Cause =
    | Foreign(inner: ForeignError)
      /** "No signatures found", with "(N unknown type)" only when N > 0 */
    | NoSignaturesFound(unknownTypes: Option<nat>)
      /** "Failed loading '<scheme>' keys from '<path>" */
    | KeyFileLoadFailed(scheme: string, path: string)
      /** "Failed loading '<scheme>' keys from inline `verification-key`" */
    | InlineKeyLoadFailed(scheme: string)
    | NoKeysFound
    | MissingDetachedMetadata

  datatype Error = Error(prefixes: seq<Prefix>, cause: Cause)

  /** The error with one more context prefix in front of its message. */
  function Prefixed(e: Error, p: Prefix): Error
  {
    Error([p] + e.prefixes, e.cause)
  }

  /** A new error with no context prefix, as glnx_throw makes one. */
  function Thrown(c: Cause): Error { Error([], c) }

  /** A value of the detached metadata dictionary: its type string and payload. */
  datatype MetaValue = MetaValue(format: string, payload: Bytes)

  type Metadata = map<string, MetaValue>

  /** Looking up a key of the given type: absent keys and values of another
      type both give None. */
  function LookupValue(md: Metadata, key: string, format: string): Option<MetaValue>
  {
    if key in md && md[key].format == format then Some(md[key]) else None
  }

  datatype PublicKey = PublicKey(material: Bytes)

  /** What resolving a scheme name yields: where its signatures live in the
      detached metadata and of which type they are. */
  datatype SchemeInfo = SchemeInfo(metadataKey: string, metadataFormat: string)

  /** The opaque verdict object of the OpenPGP engine. */
  datatype GpgVerdict = GpgVerdict(handle: nat)

  /** A collection-qualified ref. */
  datatype CollectionRef = CollectionRef(collectionId: Option<string>, refName: string)

  /** Every call this core makes into code it cannot see. */
  datatype Oracles = Oracles(
    /** ostree_sign_list_names: the registered scheme names in registry order */
    signNames: seq<string>,
    /** ostree_sign_get_by_name: None when the name does not resolve */
    signByName: string -> Option<SchemeInfo>,
    /** ostree_repo_get_remote_option (remote, key), with no default value */
    remoteOption: (string, string) -> Result<Option<string>, ForeignError>,
    /** ostree_sign_load_pk (scheme, filename): the keys read from the file */
    loadPk: (string, string) -> Option<seq<PublicKey>>,
    /** ostree_sign_add_pk (scheme, inline key text): the decoded key */
    addPk: (string, string) -> Option<PublicKey>,
    /** ostree_sign_data_verify (scheme, loaded keys, data, signatures) */
    dataVerify: (string, seq<PublicKey>, Bytes, MetaValue) -> Outcome<ForeignError>,
    /** _ostree_repo_gpg_verify_with_metadata (data, metadata, keyring remote) */
    gpgVerify: (Bytes, Option<Metadata>, string) -> Result<GpgVerdict, ForeignError>,
    /** ostree_gpg_verify_result_require_valid_signature */
    requireValidSignature: GpgVerdict -> Outcome<ForeignError>
  )
}
