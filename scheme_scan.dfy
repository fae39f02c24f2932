/** The multi-scheme verifier: every registered scheme name is tried in
    registry order against the commit's detached metadata; the first valid
    signature accepts, a key-loading failure aborts the whole scan, and when
    every present signature is invalid the first error is reported with a
    count of the others. */
module SchemeScan {
  import opened SignTypes
  import opened KeyLoading

  /** What trying one scheme name comes to. */
  datatype Probe =
    | Unknown                       // the name does not resolve
    | NoSignature                   // no signature entry of the scheme's type
    | KeyLoadFailed(error: Error)   // keys for the scheme could not be loaded
    | Rejected(error: Error)        // the signature entry did not verify
    | Accepted                      // the signature entry verified

  /** A probe that ends the scan on the spot. */
  predicate Decisive(p: Probe) { p.KeyLoadFailed? || p.Accepted? }

  /** A probe whose scheme had a signature entry. */
  predicate Signed(p: Probe) { !p.Unknown? && !p.NoSignature? }

  /** One iteration of the loop in _sign_verify_for_remote, on a freshly
      resolved scheme whose key store starts empty. */
  function ProbeScheme(o: Oracles, remote: string, data: Bytes, md: Metadata, name: string): Probe
  {
    match o.signByName(name)
    case None => Unknown
    case Some(info) =>
      match LookupValue(md, info.metadataKey, info.metadataFormat)
      case None => NoSignature
      case Some(signatures) =>
        var loaded := LoadKeys(o, remote, name, []);
        if loaded.outcome.Fail? then KeyLoadFailed(loaded.outcome.error)
        else
          match o.dataVerify(name, loaded.store, data, signatures)
          case Pass => Accepted
          case Fail(e) => Rejected(Thrown(Foreign(e)))
  }

  /** The probe of every registered name, in registry order. */
  function Probes(o: Oracles, remote: string, data: Bytes, md: Metadata): seq<Probe>
  {
    seq(|o.signNames|, i requires 0 <= i < |o.signNames| => ProbeScheme(o, remote, data, md, o.signNames[i]))
  }

  /** The loop's accumulators: n_unknown_signatures, n_invalid_signatures,
      last_sig_error and found_sig. */
  datatype Tally = Tally(unknown: nat, invalid: nat, firstError: Option<Error>, foundSig: bool)

  const NoTally := Tally(0, 0, None, false)

  /** A signature was found exactly when one was counted invalid, and then
      the first error is retained. */
  predicate Consistent(t: Tally)
  {
    (t.foundSig <==> t.invalid > 0) && (t.foundSig <==> t.firstError.Some?)
  }

  /** A non-decisive probe added to the tally. */
  function Count(t: Tally, p: Probe): Tally
  {
    match p
    case Unknown => t.(unknown := t.unknown + 1)
    case Rejected(e) =>
      Tally(t.unknown, t.invalid + 1, if t.firstError.None? then Some(e) else t.firstError, true)
    case _ => t
  }

  /** The error reported after the loop ran to the end. */
  function Verdict(t: Tally): Error
    requires Consistent(t)
  {
    if !t.foundSig then
      Thrown(NoSignaturesFound(if t.unknown > 0 then Some(t.unknown) else None))
    else if t.invalid > 1 then
      Prefixed(t.firstError.value, OtherInvalidSignatures(t.invalid - 1))
    else
      t.firstError.value
  }

  /** The scan of the remaining probes from a given tally. */
  function ScanFrom(t: Tally, ps: seq<Probe>): Outcome<Error>
    requires Consistent(t)
    decreases |ps|
  {
    if ps == [] then Fail(Verdict(t))
    else
      match ps[0]
      case Accepted => Pass
      case KeyLoadFailed(e) => Fail(e)
      case _ => ScanFrom(Count(t, ps[0]), ps[1..])
  }

  /** The result of the whole scan. */
  function Scan(ps: seq<Probe>): Outcome<Error>
  {
    ScanFrom(NoTally, ps)
  }

  /** The number of names that did not resolve. */
  function CountUnknown(ps: seq<Probe>): nat
  {
    if ps == [] then 0 else (if ps[0].Unknown? then 1 else 0) + CountUnknown(ps[1..])
  }

  /** The number of schemes that had a signature entry. */
  function CountSigned(ps: seq<Probe>): nat
  {
    if ps == [] then 0 else (if Signed(ps[0]) then 1 else 0) + CountSigned(ps[1..])
  }

  /** The error of the first rejected signature, if any. */
  function FirstRejection(ps: seq<Probe>): (r: Option<Error>)
    ensures r.Some? <==> exists i :: 0 <= i < |ps| && ps[i].Rejected?
    ensures r.Some? ==> exists i :: 0 <= i < |ps| && ps[i] == Rejected(r.value)
                                    && forall j :: 0 <= j < i ==> !ps[j].Rejected?
  {
    if ps == [] then None
    else if ps[0].Rejected? then Some(ps[0].error)
    else
      var r := FirstRejection(ps[1..]);
      assert forall i :: 1 <= i < |ps| ==> ps[i] == ps[1..][i - 1];
      if r.Some? then
        var i :| 0 <= i < |ps[1..]| && ps[1..][i] == Rejected(r.value)
                 && forall j :: 0 <= j < i ==> !ps[1..][j].Rejected?;
        assert ps[i + 1] == Rejected(r.value);
        r
      else r
  }

  lemma {:induction false} ScanFromPassIff(t: Tally, ps: seq<Probe>)
    requires Consistent(t)
    ensures ScanFrom(t, ps).Pass? <==>
              exists i :: 0 <= i < |ps| && ps[i].Accepted? && forall j :: 0 <= j < i ==> !ps[j].KeyLoadFailed?
    decreases |ps|
  {
    if ps != [] && !Decisive(ps[0]) {
      ScanFromPassIff(Count(t, ps[0]), ps[1..]);
      assert forall j :: 0 <= j < |ps[1..]| ==> ps[1..][j] == ps[j + 1];
      if ScanFrom(t, ps).Pass? {
        var i :| 0 <= i < |ps[1..]| && ps[1..][i].Accepted? && forall j :: 0 <= j < i ==> !ps[1..][j].KeyLoadFailed?;
        assert ps[i + 1].Accepted?;
      }
    }
  }

  /** The scan succeeds exactly when some scheme's signature verifies and
      no earlier scheme failed to load its keys. */
  lemma {:induction false} ScanPassIff(ps: seq<Probe>)
    ensures Scan(ps).Pass? <==>
              exists i :: 0 <= i < |ps| && ps[i].Accepted? && forall j :: 0 <= j < i ==> !ps[j].KeyLoadFailed?
  {
    ScanFromPassIff(NoTally, ps);
  }

  lemma {:induction false} ScanFromDecided(t: Tally, ps: seq<Probe>, i: nat, rest: seq<Probe>)
    requires Consistent(t)
    requires i < |ps| && Decisive(ps[i])
    requires forall j :: 0 <= j < i ==> !Decisive(ps[j])
    ensures ScanFrom(t, ps) == ScanFrom(t, ps[..i + 1] + rest)
    ensures ScanFrom(t, ps) == if ps[i].Accepted? then Pass else Fail(ps[i].error)
    decreases i
  {
    var qs := ps[..i + 1] + rest;
    assert qs[0] == ps[0];
    if i > 0 {
      assert qs[1..] == ps[1..][..i] + rest;
      ScanFromDecided(Count(t, ps[0]), ps[1..], i - 1, rest);
    }
  }

  /** Once a scheme decides the scan (a valid signature, or keys that fail
      to load) no later scheme matters: any continuation gives the same
      result, and the result is that scheme's. */
  lemma {:induction false} ScanStopsAtDecisive(ps: seq<Probe>, i: nat, rest: seq<Probe>)
    requires i < |ps| && Decisive(ps[i])
    requires forall j :: 0 <= j < i ==> !Decisive(ps[j])
    ensures Scan(ps[..i + 1] + rest) == Scan(ps)
    ensures ps[i].Accepted? ==> Scan(ps) == Pass
    ensures ps[i].KeyLoadFailed? ==> Scan(ps) == Fail(ps[i].error)
  {
    ScanFromDecided(NoTally, ps, i, rest);
  }

  lemma {:induction false} ScanFromUndecided(t: Tally, ps: seq<Probe>)
    requires Consistent(t)
    requires forall i :: 0 <= i < |ps| ==> !Decisive(ps[i])
    ensures (CountSigned(ps) > 0) <==> FirstRejection(ps).Some?
    ensures var total := Tally(t.unknown + CountUnknown(ps), t.invalid + CountSigned(ps),
                               if t.firstError.Some? then t.firstError else FirstRejection(ps),
                               t.foundSig || CountSigned(ps) > 0);
            Consistent(total) && ScanFrom(t, ps) == Fail(Verdict(total))
    decreases |ps|
  {
    if ps != [] {
      assert forall i :: 0 <= i < |ps[1..]| ==> ps[1..][i] == ps[i + 1];
      ScanFromUndecided(Count(t, ps[0]), ps[1..]);
    }
  }

  /** When no scheme had a signature entry the error is "No signatures
      found", noting the unresolved names only when there are some. */
  lemma {:induction false} ScanNoSignatures(ps: seq<Probe>)
    requires forall i :: 0 <= i < |ps| ==> !Signed(ps[i])
    ensures var n := CountUnknown(ps);
            Scan(ps) == Fail(Thrown(NoSignaturesFound(if n > 0 then Some(n) else None)))
  {
    ScanFromUndecided(NoTally, ps);
  }

  /** When k > 0 schemes had a signature entry and none verified or failed
      to load keys, the error is the first scheme's verification error,
      prefixed by the count of the other k - 1 only when k > 1. */
  lemma {:induction false} ScanAllRejected(ps: seq<Probe>)
    requires forall i :: 0 <= i < |ps| ==> !Decisive(ps[i])
    requires CountSigned(ps) > 0
    ensures FirstRejection(ps).Some?
    ensures var k, first := CountSigned(ps), FirstRejection(ps).value;
            Scan(ps) == Fail(if k > 1 then Prefixed(first, OtherInvalidSignatures(k - 1)) else first)
  {
    ScanFromUndecided(NoTally, ps);
  }

  /** The scheme registered under `name` resolves and the metadata holds a
      signature entry of its type. */
  predicate HasEntry(o: Oracles, md: Metadata, name: string)
  {
    o.signByName(name).Some?
    && LookupValue(md, o.signByName(name).value.metadataKey, o.signByName(name).value.metadataFormat).Some?
  }

  /** The scheme's keys fail to load into a fresh, empty store. */
  predicate KeysFail(o: Oracles, remote: string, name: string)
  {
    LoadKeys(o, remote, name, []).outcome.Fail?
  }

  /** The scheme's keys load into a fresh store and its signature entry
      verifies against them. */
  predicate EntryVerifies(o: Oracles, remote: string, data: Bytes, md: Metadata, name: string)
    requires HasEntry(o, md, name)
  {
    var info := o.signByName(name).value;
    var loaded := LoadKeys(o, remote, name, []);
    loaded.outcome.Pass? && o.dataVerify(name, loaded.store, data, md[info.metadataKey]).Pass?
  }

  /** The scan over the registered schemes accepts exactly when some scheme
      has an entry whose signature verifies against the keys loaded for it,
      and no earlier scheme with an entry failed to load its keys. */
  lemma {:induction false} ScanPassIffOracles(o: Oracles, remote: string, data: Bytes, md: Metadata)
    ensures Scan(Probes(o, remote, data, md)).Pass? <==>
              exists i :: 0 <= i < |o.signNames|
                          && HasEntry(o, md, o.signNames[i])
                          && EntryVerifies(o, remote, data, md, o.signNames[i])
                          && forall j :: 0 <= j < i ==>
                                 !(HasEntry(o, md, o.signNames[j]) && KeysFail(o, remote, o.signNames[j]))
  {
    var ps := Probes(o, remote, data, md);
    ScanPassIff(ps);
    forall i | 0 <= i < |ps|
      ensures ps[i].Accepted? <==>
                HasEntry(o, md, o.signNames[i]) && EntryVerifies(o, remote, data, md, o.signNames[i])
      ensures ps[i].KeyLoadFailed? <==> HasEntry(o, md, o.signNames[i]) && KeysFail(o, remote, o.signNames[i])
    {
      assert ps[i] == ProbeScheme(o, remote, data, md, o.signNames[i]);
    }
  }

  /** The first scheme with an entry whose keys fail to load ends the scan
      with exactly that loading error, when no earlier scheme accepted or
      failed to load. */
  lemma {:induction false} ScanKeyLoadAbortOracles(o: Oracles, remote: string, data: Bytes, md: Metadata, i: nat)
    requires i < |o.signNames|
    requires HasEntry(o, md, o.signNames[i]) && KeysFail(o, remote, o.signNames[i])
    requires forall j :: 0 <= j < i ==>
               !(HasEntry(o, md, o.signNames[j])
                 && (KeysFail(o, remote, o.signNames[j]) || EntryVerifies(o, remote, data, md, o.signNames[j])))
    ensures Scan(Probes(o, remote, data, md)) == Fail(LoadKeys(o, remote, o.signNames[i], []).outcome.error)
  {
    var ps := Probes(o, remote, data, md);
    forall j | 0 <= j <= i
      ensures ps[j] == ProbeScheme(o, remote, data, md, o.signNames[j])
    {
    }
    ScanStopsAtDecisive(ps, i, []);
  }

  /** _sign_verify_for_remote: the loop over the registered scheme names
      with its four accumulators and its early returns. */
  method SignVerifyForRemote(o: Oracles, remote: string, signedData: Bytes, metadata: Metadata)
    returns (r: Outcome<Error>)
    ensures r == Scan(Probes(o, remote, signedData, metadata))
  {
    var names := o.signNames;
    ghost var ps := Probes(o, remote, signedData, metadata);
    var nInvalid: nat := 0;
    var nUnknown: nat := 0;
    var lastSigError: Option<Error> := None;
    var foundSig := false;

    for i := 0 to |names|
      invariant Consistent(Tally(nUnknown, nInvalid, lastSigError, foundSig))
      invariant ScanFrom(Tally(nUnknown, nInvalid, lastSigError, foundSig), ps[i..]) == Scan(ps)
    {
      assert ps[i..][0] == ps[i] && ps[i..][1..] == ps[i + 1..];
      var info := o.signByName(names[i]);
      if info.None? {
        nUnknown := nUnknown + 1;
        continue;
      }
      var sign := new Scheme(names[i], info.value);
      var signatures := LookupValue(metadata, sign.metadataKey, sign.metadataFormat);
      if signatures.None? {
        continue;
      }
      var loaded := sign.LoadPublicKeys(o, remote);
      if loaded.Fail? {
        return loaded;
      }
      foundSig := true;
      // only the first verification error is kept
      var verified := o.dataVerify(sign.name, sign.keys, signedData, signatures.value);
      if verified.Fail? {
        if lastSigError.None? {
          lastSigError := Some(Thrown(Foreign(verified.error)));
        }
        nInvalid := nInvalid + 1;
        continue;
      }
      return Pass;
    }

    if !foundSig {
      if nUnknown > 0 {
        return Fail(Thrown(NoSignaturesFound(Some(nUnknown))));
      }
      return Fail(Thrown(NoSignaturesFound(None)));
    }

    // g_assert (last_sig_error): holds because a failed data_verify always carries an error
    assert lastSigError.Some?;
    r := Fail(lastSigError.value);
    if nInvalid > 1 {
      r := Fail(Prefixed(r.error, OtherInvalidSignatures(nInvalid - 1)));
    }
  }
}
