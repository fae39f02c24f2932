# Commit verification in an ostree pull, modelled in Dafny

This project models the part of libostree's pull machinery that decides
whether a fetched commit is authentic (`src/libostree/ostree-repo-pull-verify.c`).
A commit can be checked in two ways. The OpenPGP check asks the GPG engine
for a verdict and requires a valid signature. The signing-API check walks
every registered signature scheme (ed25519 and friends) over the commit's
detached metadata. A pull session keeps a set of verified commits so that a
commit checked before it is written is not checked again afterwards.

Modules, one per component, all in Dafny 4.11 with no external libraries:

- `SignTypes` (`sign_types.dfy`): `Option`/`Result`/`Outcome`, the
  structured error and detached metadata. It also holds `Oracles`, a record
  of uninterpreted total functions standing for every foreign call: scheme
  listing and resolution, remote option lookup, `load_pk`, `add_pk`,
  `data_verify`, the GPG engine and `require_valid_signature`. The error is
  a cause plus a list of context prefixes (`"Commit <checksum>"`,
  `"Can't verify commit"`, `"(N other invalid signatures)"`). Oracle errors
  are a separate `ForeignError` type, so a lemma can say which errors this
  code itself can raise.
- `KeyLoading` (`key_loading.dfy`): the option names
  `verification-<scheme>-<suffix>`, their lookup `SignapiRemoteOption`
  (`get_signapi_remote_option`), the functional specification `LoadKeys`
  of `_signapi_load_public_keys`, and a `Scheme` class whose key store
  `keys` is changed in place by the method `LoadPublicKeys`. That method
  follows the C code step by step, with its two flags. Its postcondition
  ties it to `LoadKeys`.
- `SchemeScan` (`scheme_scan.dfy`): what one loop iteration comes to for
  one scheme name (`ProbeScheme`, giving a `Probe`). The specification of
  the loop is a fold `ScanFrom` over the probes, carrying the four
  accumulators in a `Tally`. The method `SignVerifyForRemote` is the loop of
  `_sign_verify_for_remote` itself, proved equal to `Scan` of the probes.
  The lemmas characterise `Scan` independently of the fold.
- `PullVerify` (`pull_verify.dfy`): the session state (`Session`: verified
  checksums, emitted `gpg-verify-result` signals, and a trace of the
  mechanisms called). It has the functional specifications
  `ProcessGpgResult` and `VerifyCommit`, and a `PullData` class whose
  methods `ProcessGpgVerifyResult` and `VerifyUnwrittenCommit` change
  `verifiedCommits` and `events` in place. The signing-API check always
  reads key options of the pull's `remote_name` (line 293); only the
  OpenPGP check uses the ref-to-keyring map (lines 270-275).

Two behaviours of the code as written are modelled faithfully and proved:

- The replace-keys path is dead. `loaded_from_file` starts out `TRUE`
  (line 78). So an inline key is always appended with `add_pk`, even when
  no key file is configured. The `set_pk` branch (line 129) holds
  `assert false` in `Scheme.LoadPublicKeys`, which proves it cannot run.
  The "No keys found" error (lines 139-140) can never be returned.
- An OpenPGP pass is recorded (line 244) before the signing-API check runs.
  When that check then fails, the checksum stays in the verified set. A
  later call for the same checksum is then accepted by the memo check at
  line 262 (`GpgPassSurvivesSignFailure`).

Three points where the code does something other than a reader might
expect; the model follows the code:

- The branch at lines 126-129 shows that an inline key was meant to
  replace the store (`set_pk`) when no key file was loaded. Because
  `loaded_from_file` starts out `TRUE`, the code always adds it (see above).
- A reader might expect a commit that passes OpenPGP but then fails the
  signing-API check to stay out of the verified set. The code records it at
  line 244, before the signing-API check runs (see above).
- A reader might expect `found_sig` to be set as soon as a signature entry
  is found. The code loads keys first and sets it afterwards (lines
  183-187). A load failure returns at once, so the difference cannot be
  observed.

## Model

| member | source | states |
|---|---|---|
| KeyLoading.OptionKeyRoundTrip | src/libostree/ostree-repo-pull-verify.c:54 | the option name `verification-<scheme>-<suffix>` gives back its scheme name once the suffix is known, so two schemes never share an option |
| KeyLoading.FileAndKeyOptionsDistinct | src/libostree/ostree-repo-pull-verify.c:81-84 | the `-file` option of any scheme and the `-key` option of any scheme are never the same name |
| KeyLoading.LoadKeysReadsOnlyItsOptions | src/libostree/ostree-repo-pull-verify.c:46-56 | `get_signapi_remote_option` is `SignapiRemoteOption`, one `remoteOption` lookup on the given remote of the option named `RemoteOptionKey(scheme, suffix)`, with no default value; key loading reads only the two options `verification-<scheme>-file` and `verification-<scheme>-key` of the given remote through it: configurations that agree on them give the same result |
| KeyLoading.LoadKeys | src/libostree/ostree-repo-pull-verify.c:70-143 | keys already in the store are never dropped or replaced; "No keys found" is never returned; every error it raises carries no prefix |
| KeyLoading.LoadKeysWithoutConfiguration | src/libostree/ostree-repo-pull-verify.c:86-99 | when both lookups succeed with no value, loading succeeds and the store is unchanged |
| KeyLoading.LoadKeysLookupFailure | src/libostree/ostree-repo-pull-verify.c:81-84 | a failed lookup of the file option, or of the key option after it, is returned as the failure and the store is unchanged |
| KeyLoading.LoadKeysFileFailure | src/libostree/ostree-repo-pull-verify.c:101-118 | a configured key file that fails to load gives an error naming the scheme and the path, leaves the store unchanged, and never consults the inline key (any `add_pk` gives the same result) |
| KeyLoading.LoadKeysMerge | src/libostree/ostree-repo-pull-verify.c:120-142 | after success the store is the prior store, then the file's keys if a file is configured, then the inline key if one is configured |
| KeyLoading.LoadKeysInlineFailure | src/libostree/ostree-repo-pull-verify.c:120-135 | an inline key that `add_pk` rejects is fatal with the error naming the scheme and the inline `verification-key` source; the prior keys and any keys from the key file stay in the store |
| KeyLoading.LoadKeysInlineOnly | src/libostree/ostree-repo-pull-verify.c:78-79 | with only an inline key configured, the key is appended to the existing store, not used to replace it |
| KeyLoading.Scheme.LoadPublicKeys | src/libostree/ostree-repo-pull-verify.c:70-143 | the step-by-step load, flags included, leaves outcome and key store exactly as `LoadKeys` says; the `set_pk` branch is unreachable |
| KeyLoading.Scheme.constructor | src/libostree/ostree-repo-pull-verify.c:161-173 | a freshly resolved scheme carries its name, metadata key and format, and an empty key store |
| SchemeScan.FirstRejection | src/libostree/ostree-repo-pull-verify.c:191-194 | the retained error exists exactly when some signature was rejected, and it is the error of the first rejected one |
| SchemeScan.ScanPassIff | src/libostree/ostree-repo-pull-verify.c:159-200 | the scan succeeds exactly when some scheme's signature verifies and no earlier scheme failed to load its keys |
| SchemeScan.ScanStopsAtDecisive | src/libostree/ostree-repo-pull-verify.c:184-185 | the first valid signature or key-load failure decides the result (success, or that load error), and no later scheme changes it |
| SchemeScan.ScanPassIffOracles | src/libostree/ostree-repo-pull-verify.c:159-200 | in terms of the foreign calls: the scan accepts exactly when some registered scheme resolves, has an entry of its type, loads its keys into an empty store and `data_verify` passes on them, and no earlier scheme with an entry failed to load its keys |
| SchemeScan.ScanKeyLoadAbortOracles | src/libostree/ostree-repo-pull-verify.c:175-185 | the first scheme with an entry whose keys fail to load, with no earlier scheme accepting, ends the scan with exactly that loading error |
| SchemeScan.ScanNoSignatures | src/libostree/ostree-repo-pull-verify.c:203-207 | with no signature entry at all the error is "No signatures found", noting the number of unresolved names only when it is positive |
| SchemeScan.ScanAllRejected | src/libostree/ostree-repo-pull-verify.c:191-214 | when k > 0 schemes had entries and all were rejected, the error is the first rejection, prefixed by "(k-1 other invalid signatures)" only when k > 1, and that first error exists |
| SchemeScan.SignVerifyForRemote | src/libostree/ostree-repo-pull-verify.c:145-215 | the loop with its counters, flag, retained error and early returns computes `Scan` of the per-name probes; the assertion at line 210 is proved, under the assumption that `data_verify` sets its error whenever it fails |
| PullVerify.VerifyCommitGpgKeyringRemote | src/libostree/ostree-repo-pull-verify.c:270-281 | every call not answered from the memo set and with OpenPGP enabled first calls the engine with the ref's mapped remote when there is a ref with a mapping, otherwise with the pull's remote |
| PullVerify.ProcessGpgResultSignalsThenJudges | src/libostree/ostree-repo-pull-verify.c:219-247 | a NULL verdict fails with the engine's error prefixed by the commit, with no signal and no record; otherwise the signal is emitted whatever the verdict, the call passes exactly when `require_valid_signature` passes, an invalid verdict fails with that call's error prefixed by the commit, and only a pass records the checksum |
| PullVerify.PullData.ProcessGpgVerifyResult | src/libostree/ostree-repo-pull-verify.c:219-247 | the in-place update of signals and verified set is exactly `ProcessGpgResult` |
| PullVerify.VerifyCommitMemoized | src/libostree/ostree-repo-pull-verify.c:260-263 | with a mechanism enabled and the checksum already verified, the call succeeds with no call, no signal and no state change |
| PullVerify.VerifyCommitUnchecked | src/libostree/ostree-repo-pull-verify.c:260-301 | with neither mechanism enabled, every commit is accepted and nothing changes |
| PullVerify.VerifyCommitRecordsOnlyPasses | src/libostree/ostree-repo-pull-verify.c:296-298 | the verified set only grows, only by this checksum, and only after an OpenPGP pass or a signing-API pass; signals and calls are only appended |
| PullVerify.VerifyCommitGpgFailureStops | src/libostree/ostree-repo-pull-verify.c:268-284 | an OpenPGP failure returns the engine's error, or else `require_valid_signature`'s error, prefixed by the commit; the scheme verifier is not called; nothing is recorded; the signal is emitted exactly when the engine gave a verdict |
| PullVerify.VerifyCommitNeedsMetadata | src/libostree/ostree-repo-pull-verify.c:287-291 | signing-API verification without detached metadata fails with the missing-metadata error before the scheme verifier is called |
| PullVerify.VerifyCommitSignFailure | src/libostree/ostree-repo-pull-verify.c:293-294 | a failed scan is returned behind the prefix "Can't verify commit", after the scheme verifier was called with the pull's remote |
| PullVerify.VerifyCommitBothRequired | src/libostree/ostree-repo-pull-verify.c:265-301 | short of the memo set, a commit is accepted exactly when every enabled mechanism passes |
| PullVerify.GpgPassSurvivesSignFailure | src/libostree/ostree-repo-pull-verify.c:244 | an OpenPGP pass followed by a signing-API failure fails the call but leaves the checksum recorded, so a repeated call is accepted whatever its inputs |
| PullVerify.PullData.VerifyUnwrittenCommit | src/libostree/ostree-repo-pull-verify.c:250-302 | the in-place orchestrator leaves result, verified set, signals and call trace exactly as `VerifyCommit` says, and the verified set never shrinks |

## Left out

- The OpenPGP engine (`_ostree_repo_gpg_verify_with_metadata`) and `ostree_gpg_verify_result_require_valid_signature` are uninterpreted functions in `Oracles`. The verdict is an opaque handle.
- The crypto behind `ostree_sign_load_pk`, `ostree_sign_add_pk` and `ostree_sign_data_verify` is an uninterpreted function too. `load_pk` and `add_pk` extend the store only on success. The detail of a `load_pk` or `add_pk` error is discarded, as the code does.
- `ostree_sign_set_pk` has no oracle: its branch is proved unreachable.
- Scheme listing and resolution (`ostree_sign_list_names`, `ostree_sign_get_by_name`) are a given sequence of names and a partial function. A resolved scheme is a fresh object whose key store is assumed empty, and its name is taken to be the listed name.
- GVariant is not modelled. `g_variant_get_data_as_bytes` becomes the commit's bytes, passed in directly. Detached metadata is a map from keys to a (type string, payload) pair, and a typed lookup (`LookupValue`) finds an entry only when its type string matches. The options builder for `load_pk` becomes passing the file name.
- Remote configuration parsing (`ostree_repo_get_remote_option`) is one lookup oracle that can fail.
- Cancellation is left out. The token is only passed through to the GPG engine, and a cancellation there is one more foreign error.
- Signal delivery is an append to the session's `events`. Which calls reach the two mechanisms is recorded in a ghost trace, `calls`; it exists only for the lemmas.
- Error messages are not rendered as strings. Each error keeps its cause with the values the format string uses (scheme, path, count) and its list of prefixes.
- Memory management (`g_autoptr`, hash-table ownership) is not modelled.
- The `OSTREE_DISABLE_GPGME` build, which drops the OpenPGP path, is not modelled. The OpenPGP path is always compiled in.
- `data_verify` is assumed to set its error whenever it fails, as the GError convention requires: its oracle returns a failure only together with an error. A failure without an error (a `g_return_val_if_fail` path, say) is not modelled, and that is the only case in which the assertion at line 210 could fail.
