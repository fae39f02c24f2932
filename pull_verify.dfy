/** The per-commit orchestrator of a pull session: the OpenPGP adapter and
    the signing-API check, run in that order under the session's set of
    already verified commits. */
module PullVerify {
  import opened SignTypes
  import opened SchemeScan

  /** A "gpg-verify-result" signal as a subscriber receives it. */
  datatype GpgEvent = GpgEvent(checksum: string, verdict: GpgVerdict)

  /** A call into one of the two verification mechanisms. */
  datatype Call =
    | GpgEngineCall(keyringRemote: string)   // _ostree_repo_gpg_verify_with_metadata
    | SchemeVerifierCall(remote: string)     // _sign_verify_for_remote

  /** What a pull session remembers between calls, plus the calls made:
      verified_commits, the signals emitted, and the mechanisms invoked. */
  datatype Session = Session(verified: set<string>, events: seq<GpgEvent>, calls: seq<Call>)

  datatype Step = Step(outcome: Outcome<Error>, session: Session)

  /** The pull's verification settings. */
  datatype PullOptions = PullOptions(
    gpgVerify: bool,
    signVerify: bool,
    remoteName: string,
    refKeyringMap: map<CollectionRef, string>
  )

  /** The remote whose keyring checks OpenPGP signatures: the one mapped to
      the ref when there is a ref with a mapping, else the pull's remote. */
  function KeyringRemote(opts: PullOptions, ref: Option<CollectionRef>): string
  {
    if ref.Some? && ref.value in opts.refKeyringMap then opts.refKeyringMap[ref.value] else opts.remoteName
  }

  /** The effect of _process_gpg_verify_result on the session. */
  function ProcessGpgResult(s: Session, checksum: string, result: Result<GpgVerdict, ForeignError>,
                            o: Oracles): Step
  {
    match result
    case Err(e) => Step(Fail(Prefixed(Thrown(Foreign(e)), CommitContext(checksum))), s)
    case Ok(v) =>
      var emitted := s.(events := s.events + [GpgEvent(checksum, v)]);
      match o.requireValidSignature(v)
      case Fail(e) => Step(Fail(Prefixed(Thrown(Foreign(e)), CommitContext(checksum))), emitted)
      case Pass => Step(Pass, emitted.(verified := emitted.verified + {checksum}))
  }

  /** The OpenPGP check passes: the engine returns a verdict holding a
      valid signature. */
  predicate GpgPasses(o: Oracles, commit: Bytes, md: Option<Metadata>, keyringRemote: string)
  {
    o.gpgVerify(commit, md, keyringRemote).Ok?
    && o.requireValidSignature(o.gpgVerify(commit, md, keyringRemote).value).Pass?
  }

  /** The signing-API check passes: metadata is present and some scheme
      accepts. */
  predicate SignPasses(o: Oracles, remote: string, commit: Bytes, md: Option<Metadata>)
  {
    md.Some? && Scan(Probes(o, remote, commit, md.value)).Pass?
  }

  /** The call is answered from the memo set. */
  predicate Memoized(opts: PullOptions, s: Session, checksum: string)
  {
    (opts.gpgVerify || opts.signVerify) && checksum in s.verified
  }

  /** The effect of _verify_unwritten_commit on the session. */
  function VerifyCommit(opts: PullOptions, s: Session, o: Oracles, checksum: string, commit: Bytes,
                        md: Option<Metadata>, ref: Option<CollectionRef>): Step
  {
    if Memoized(opts, s, checksum) then Step(Pass, s)
    else
      var afterGpg :=
        if opts.gpgVerify then
          var kr := KeyringRemote(opts, ref);
          ProcessGpgResult(s.(calls := s.calls + [GpgEngineCall(kr)]), checksum, o.gpgVerify(commit, md, kr), o)
        else Step(Pass, s);
      if afterGpg.outcome.Fail? || !opts.signVerify then afterGpg
      else if md.None? then Step(Fail(Thrown(MissingDetachedMetadata)), afterGpg.session)
      else
        var s' := afterGpg.session.(calls := afterGpg.session.calls + [SchemeVerifierCall(opts.remoteName)]);
        match Scan(Probes(o, opts.remoteName, commit, md.value))
        case Fail(e) => Step(Fail(Prefixed(e, CantVerifyCommit)), s')
        case Pass => Step(Pass, s'.(verified := s'.verified + {checksum}))
  }

  /** A NULL verdict fails, prefixed by the commit, with no signal and no
      record; a verdict is always signalled before it is judged, and only a
      valid one marks the commit verified. */
  lemma ProcessGpgResultSignalsThenJudges(s: Session, checksum: string,
                                          result: Result<GpgVerdict, ForeignError>, o: Oracles)
    ensures var r := ProcessGpgResult(s, checksum, result, o);
            && r.session.calls == s.calls
            && (r.outcome.Fail? ==> r.outcome.error.prefixes == [CommitContext(checksum)])
            && (result.Err? ==> r == Step(Fail(Prefixed(Thrown(Foreign(result.error)), CommitContext(checksum))), s))
            && (result.Ok? ==> r.session.events == s.events + [GpgEvent(checksum, result.value)])
            && (result.Ok? ==> (r.outcome.Pass? <==> o.requireValidSignature(result.value).Pass?))
            && (result.Ok? && o.requireValidSignature(result.value).Fail? ==>
                  r.outcome == Fail(Prefixed(Thrown(Foreign(o.requireValidSignature(result.value).error)),
                                             CommitContext(checksum))))
            && r.session.verified == if r.outcome.Pass? then s.verified + {checksum} else s.verified
  {
  }

  /** With either mechanism enabled, a checksum already in the memo set is
      accepted with no call, no signal and no change. */
  lemma VerifyCommitMemoized(opts: PullOptions, s: Session, o: Oracles, checksum: string,
                             commit: Bytes, md: Option<Metadata>, ref: Option<CollectionRef>)
    requires opts.gpgVerify || opts.signVerify
    requires checksum in s.verified
    ensures VerifyCommit(opts, s, o, checksum, commit, md, ref) == Step(Pass, s)
  {
  }

  /** With neither mechanism enabled every commit is accepted and nothing
      changes. */
  lemma VerifyCommitUnchecked(opts: PullOptions, s: Session, o: Oracles, checksum: string,
                              commit: Bytes, md: Option<Metadata>, ref: Option<CollectionRef>)
    requires !opts.gpgVerify && !opts.signVerify
    ensures VerifyCommit(opts, s, o, checksum, commit, md, ref) == Step(Pass, s)
  {
  }

  /** The memo set only grows, and by this checksum alone, and only after
      one of the two mechanisms passed; signals and calls are only appended. */
  lemma VerifyCommitRecordsOnlyPasses(opts: PullOptions, s: Session, o: Oracles, checksum: string,
                                      commit: Bytes, md: Option<Metadata>, ref: Option<CollectionRef>)
    ensures var r := VerifyCommit(opts, s, o, checksum, commit, md, ref).session;
            && s.verified <= r.verified <= s.verified + {checksum}
            && (checksum in r.verified - s.verified ==>
                  (opts.gpgVerify && GpgPasses(o, commit, md, KeyringRemote(opts, ref)))
                  || (opts.signVerify && SignPasses(o, opts.remoteName, commit, md)))
            && r.events[..|s.events|] == s.events
            && r.calls[..|s.calls|] == s.calls
  {
  }

  /** A failed OpenPGP check ends the call: its error (prefixed by the
      commit) is returned, the scheme verifier is never called, and the
      signal is emitted exactly when the engine produced a verdict. */
  lemma VerifyCommitGpgFailureStops(opts: PullOptions, s: Session, o: Oracles, checksum: string,
                                    commit: Bytes, md: Option<Metadata>, ref: Option<CollectionRef>)
    requires !Memoized(opts, s, checksum) && opts.gpgVerify
    requires !GpgPasses(o, commit, md, KeyringRemote(opts, ref))
    ensures var kr := KeyringRemote(opts, ref);
            var g := o.gpgVerify(commit, md, kr);
            var r := VerifyCommit(opts, s, o, checksum, commit, md, ref);
            && r.outcome == Fail(Prefixed(Thrown(Foreign(if g.Err? then g.error
                                                         else o.requireValidSignature(g.value).error)),
                                          CommitContext(checksum)))
            && r.session.calls == s.calls + [GpgEngineCall(kr)]
            && r.session.verified == s.verified
            && r.session.events == s.events + (if g.Ok? then [GpgEvent(checksum, g.value)] else [])
  {
  }

  /** Every call that is not answered from the memo set and has OpenPGP
      enabled first calls the engine with the keyring remote: the ref's
      mapped remote when there is a ref with a mapping, else the pull's. */
  lemma VerifyCommitGpgKeyringRemote(opts: PullOptions, s: Session, o: Oracles, checksum: string,
                                     commit: Bytes, md: Option<Metadata>, ref: Option<CollectionRef>)
    requires !Memoized(opts, s, checksum) && opts.gpgVerify
    ensures var r := VerifyCommit(opts, s, o, checksum, commit, md, ref).session;
            && |r.calls| > |s.calls|
            && r.calls[|s.calls|]
               == GpgEngineCall(if ref.Some? && ref.value in opts.refKeyringMap
                                then opts.refKeyringMap[ref.value] else opts.remoteName)
  {
  }

  /** Signing-API verification without detached metadata fails before the
      scheme verifier runs. */
  lemma VerifyCommitNeedsMetadata(opts: PullOptions, s: Session, o: Oracles, checksum: string,
                                  commit: Bytes, ref: Option<CollectionRef>)
    requires !Memoized(opts, s, checksum) && opts.signVerify
    requires opts.gpgVerify ==> GpgPasses(o, commit, None, KeyringRemote(opts, ref))
    ensures var r := VerifyCommit(opts, s, o, checksum, commit, None, ref);
            && r.outcome == Fail(Thrown(MissingDetachedMetadata))
            && r.session.calls == s.calls + (if opts.gpgVerify then [GpgEngineCall(KeyringRemote(opts, ref))] else [])
  {
  }

  /** A failed scheme scan is reported behind "Can't verify commit". */
  lemma VerifyCommitSignFailure(opts: PullOptions, s: Session, o: Oracles, checksum: string,
                                commit: Bytes, md: Metadata, ref: Option<CollectionRef>)
    requires !Memoized(opts, s, checksum) && opts.signVerify
    requires opts.gpgVerify ==> GpgPasses(o, commit, Some(md), KeyringRemote(opts, ref))
    requires Scan(Probes(o, opts.remoteName, commit, md)).Fail?
    ensures var r := VerifyCommit(opts, s, o, checksum, commit, Some(md), ref);
            && r.outcome == Fail(Prefixed(Scan(Probes(o, opts.remoteName, commit, md)).error, CantVerifyCommit))
            && r.session.calls[|r.session.calls| - 1] == SchemeVerifierCall(opts.remoteName)
  {
  }

  /** Short of the memo set, a commit is accepted exactly when every enabled
      mechanism passes. */
  lemma VerifyCommitBothRequired(opts: PullOptions, s: Session, o: Oracles, checksum: string,
                                 commit: Bytes, md: Option<Metadata>, ref: Option<CollectionRef>)
    requires !Memoized(opts, s, checksum)
    ensures VerifyCommit(opts, s, o, checksum, commit, md, ref).outcome.Pass? <==>
              (opts.gpgVerify ==> GpgPasses(o, commit, md, KeyringRemote(opts, ref)))
              && (opts.signVerify ==> SignPasses(o, opts.remoteName, commit, md))
  {
  }

  /** As written, an OpenPGP pass is recorded even when the signing-API
      check then fails, so a repeated call with the same checksum is
      accepted from the memo set whatever its inputs. */
  lemma GpgPassSurvivesSignFailure(opts: PullOptions, s: Session, o: Oracles, checksum: string,
                                    commit: Bytes, md: Option<Metadata>, ref: Option<CollectionRef>,
                                    o': Oracles, commit': Bytes, md': Option<Metadata>, ref': Option<CollectionRef>)
    requires !Memoized(opts, s, checksum) && opts.gpgVerify && opts.signVerify
    requires GpgPasses(o, commit, md, KeyringRemote(opts, ref))
    requires !SignPasses(o, opts.remoteName, commit, md)
    ensures var first := VerifyCommit(opts, s, o, checksum, commit, md, ref);
            && first.outcome.Fail?
            && checksum in first.session.verified
            && VerifyCommit(opts, first.session, o', checksum, commit', md', ref') == Step(Pass, first.session)
  {
    var first := VerifyCommit(opts, s, o, checksum, commit, md, ref);
    assert checksum in first.session.verified;
    VerifyCommitMemoized(opts, first.session, o', checksum, commit', md', ref');
  }

  /** The pull session's verification state: its settings, the set of
      verified commits, and the signals emitted so far. */
  class PullData {
    const gpgVerify: bool
    const signVerify: bool
    const remoteName: string
    const refKeyringMap: map<CollectionRef, string>
    var verifiedCommits: set<string>
    var events: seq<GpgEvent>
    ghost var calls: seq<Call>

    constructor (gpgVerify: bool, signVerify: bool, remoteName: string,
                 refKeyringMap: map<CollectionRef, string>)
      ensures Options() == PullOptions(gpgVerify, signVerify, remoteName, refKeyringMap)
      ensures State() == Session({}, [], [])
    {
      this.gpgVerify := gpgVerify;
      this.signVerify := signVerify;
      this.remoteName := remoteName;
      this.refKeyringMap := refKeyringMap;
      verifiedCommits := {};
      events := [];
      calls := [];
    }

    function Options(): PullOptions
    {
      PullOptions(gpgVerify, signVerify, remoteName, refKeyringMap)
    }

    ghost function State(): Session
      reads this
    {
      Session(verifiedCommits, events, calls)
    }

    /** _process_gpg_verify_result */
    method ProcessGpgVerifyResult(checksum: string, result: Result<GpgVerdict, ForeignError>, o: Oracles)
      returns (r: Outcome<Error>)
      modifies this
      ensures Step(r, State()) == ProcessGpgResult(old(State()), checksum, result, o)
    {
      if result.Err? {
        return Fail(Prefixed(Thrown(Foreign(result.error)), CommitContext(checksum)));
      }
      // subscribers see the verdict before it is judged
      events := events + [GpgEvent(checksum, result.value)];
      var valid := o.requireValidSignature(result.value);
      if valid.Fail? {
        return Fail(Prefixed(Thrown(Foreign(valid.error)), CommitContext(checksum)));
      }
      verifiedCommits := verifiedCommits + {checksum};
      return Pass;
    }

    /** _verify_unwritten_commit; `commit` is the commit's serialized bytes,
        the data every scheme signs. */
    method VerifyUnwrittenCommit(checksum: string, commit: Bytes, detachedMetadata: Option<Metadata>,
                                 ref: Option<CollectionRef>, o: Oracles)
      returns (r: Outcome<Error>)
      modifies this
      ensures Step(r, State()) == VerifyCommit(Options(), old(State()), o, checksum, commit, detachedMetadata, ref)
      ensures old(verifiedCommits) <= verifiedCommits
    {
      if gpgVerify || signVerify {
        if checksum in verifiedCommits {
          return Pass;
        }
      }

      var signedData := commit;

      if gpgVerify {
        var keyringRemote: string;
        if ref.Some? && ref.value in refKeyringMap {
          keyringRemote := refKeyringMap[ref.value];
        } else {
          keyringRemote := remoteName;
        }
        calls := calls + [GpgEngineCall(keyringRemote)];
        var result := o.gpgVerify(signedData, detachedMetadata, keyringRemote);
        var gpg := ProcessGpgVerifyResult(checksum, result, o);
        if gpg.Fail? {
          return gpg;
        }
      }

      if signVerify {
        if detachedMetadata.None? {
          return Fail(Thrown(MissingDetachedMetadata));
        }
        calls := calls + [SchemeVerifierCall(remoteName)];
        var sign := SignVerifyForRemote(o, remoteName, signedData, detachedMetadata.value);
        if sign.Fail? {
          return Fail(Prefixed(sign.error, CantVerifyCommit));
        }
        verifiedCommits := verifiedCommits + {checksum};
      }

      return Pass;
    }
  }
}
