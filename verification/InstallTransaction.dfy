/** The durable first-install journal record and its validation
    (`ApplyTransaction` and `Validate` in installer/transaction.go). */
module InstallTransaction {
  import opened Common

  datatype UI = Antd | Ele | Naive | OtherUI(name: string)
  datatype Mode = Embedded | Standalone | APIOnly | Dev | OtherMode(name: string)
  datatype Phase = Applying | Retryable | CompensationPending | OtherPhase(name: string)
  datatype Step =
    | Plan | Database | Redis | Schema | Identity | Environment | Lock | Failed
    | OtherStep(name: string)

  datatype IdentityReceipt = IdentityReceipt(reference: string)

  datatype EnvironmentReceipt = EnvironmentReceipt(
    digest: string, reference: string, previousDigest: string, backupName: string, replaced: bool)

  /** Instants are naturals; zero is Go's zero time. */
  datatype Marker = Marker(
    schemaVersion: int, installerVersion: string, installedAt: nat,
    selectedUI: UI, mode: Mode, artifactHash: string, manifestHash: string)

  datatype Transaction = Transaction(
    schema: int, owner: string, id: string, selectedUI: UI, mode: Mode, databaseTarget: string,
    phase: Phase, currentStep: Step, completedSteps: seq<Step>,
    identity: Option<IdentityReceipt>, environmentIntent: string,
    environment: Option<EnvironmentReceipt>, marker: Option<Marker>, updatedAt: nat)

  const TRANSACTION_SCHEMA := 1
  const TRANSACTION_OWNER := "server-installer"
  const MARKER_SCHEMA := 1
  const INSTALLER_VERSION := "0.4.0-dev"

  /** The order in which `apply` completes the steps that precede the marker. */
  const STEP_ORDER := [Plan, Database, Redis, Schema, Identity, Environment]

  predicate ValidUI(ui: UI) { !ui.OtherUI? }
  predicate ValidMode(mode: Mode) { !mode.OtherMode? }
  predicate ValidDigest(s: string) { |s| == 64 && LowerHex(s) }
  predicate ValidID(s: string) { |s| == 40 && s[..8] == "install-" && LowerHex(s[8..]) }
  predicate ValidCurrentStep(s: Step) { s in {Schema, Identity, Environment, Lock, Failed} }
  predicate ValidCompletedStep(s: Step) { s in STEP_ORDER }
  predicate HexDigit(c: char) { '0' <= c <= '9' || 'a' <= c <= 'f' || 'A' <= c <= 'F' }
  predicate ValidHash(s: string) { |s| == 64 && forall i | 0 <= i < |s| :: HexDigit(s[i]) }

  predicate ValidMarker(m: Marker) {
    && m.schemaVersion == MARKER_SCHEMA
    && Trim(m.installerVersion) != "" && |Trim(m.installerVersion)| <= 64
    && m.installedAt > 0
    && ValidUI(m.selectedUI) && ValidMode(m.mode)
    && ValidHash(m.artifactHash) && ValidHash(m.manifestHash)
  }

  predicate ValidBackupName(name: string) {
    var v := Trim(name);
    v != "" && |v| <= 255 && v != "." && v != ".."
    && forall c | c in "/\\\0\r\n" :: c !in v
  }

  predicate ValidEnvironmentReceipt(e: EnvironmentReceipt, id: string) {
    && e.reference == id && ValidDigest(e.digest)
    && (if e.replaced then
          && ValidDigest(e.previousDigest) && ValidBackupName(e.backupName)
          && e.backupName == ".env.previous-" + e.reference
        else e.previousDigest == "" && e.backupName == "")
  }

  predicate NoDuplicates<T(==)>(s: seq<T>) {
    forall i, j | 0 <= i < j < |s| :: s[i] != s[j]
  }

  /** What `ApplyTransaction.Validate` accepts. */
  predicate ValidTransaction(t: Transaction) {
    && t.schema == TRANSACTION_SCHEMA && t.owner == TRANSACTION_OWNER && ValidID(t.id)
    && ValidUI(t.selectedUI) && ValidMode(t.mode) && !t.phase.OtherPhase?
    && ValidDigest(t.databaseTarget) && ValidCurrentStep(t.currentStep) && t.updatedAt > 0
    && (forall s | s in t.completedSteps :: ValidCompletedStep(s))
    && NoDuplicates(t.completedSteps)
    && (t.identity.Some? ==> t.identity.value.reference == t.id)
    && (t.environmentIntent == "" || t.environmentIntent == t.id)
    && (t.environment.Some? ==> ValidEnvironmentReceipt(t.environment.value, t.id))
    && (t.marker.Some? ==>
          && ValidMarker(t.marker.value)
          && t.marker.value.selectedUI == t.selectedUI && t.marker.value.mode == t.mode)
  }

  /** `Validate`: the scan with its `seen` set decides exactly `ValidTransaction`. */
  method Validate(t: Transaction) returns (ok: bool)
    ensures ok == ValidTransaction(t)
  {
    if t.schema != TRANSACTION_SCHEMA || t.owner != TRANSACTION_OWNER || !ValidID(t.id)
       || !ValidUI(t.selectedUI) || !ValidMode(t.mode) || t.phase.OtherPhase?
       || !ValidDigest(t.databaseTarget) || !ValidCurrentStep(t.currentStep) || t.updatedAt == 0
    {
      return false;
    }
    var seen := {};
    for i := 0 to |t.completedSteps|
      invariant forall s :: s in seen <==> s in t.completedSteps[..i]
      invariant forall s | s in t.completedSteps[..i] :: ValidCompletedStep(s)
      invariant NoDuplicates(t.completedSteps[..i])
    {
      var step := t.completedSteps[i];
      if !ValidCompletedStep(step) || step in seen {
        assert step in t.completedSteps;
        return false;
      }
      seen := seen + {step};
      assert t.completedSteps[..i + 1] == t.completedSteps[..i] + [step];
    }
    assert t.completedSteps[..|t.completedSteps|] == t.completedSteps;
    if t.identity.Some? && t.identity.value.reference != t.id { return false; }
    if t.environmentIntent != "" && t.environmentIntent != t.id { return false; }
    if t.environment.Some? && !ValidEnvironmentReceipt(t.environment.value, t.id) { return false; }
    if t.marker.Some? && (!ValidMarker(t.marker.value)
                          || t.marker.value.selectedUI != t.selectedUI
                          || t.marker.value.mode != t.mode) { return false; }
    return true;
  }

  /** Lower-case hexadecimal digits, this many. */
  predicate Hex(s: string, n: nat) { |s| == n && forall c | c in s :: c in "0123456789abcdef" }

  /** A receipt names its transaction, and with it the one backup it may have made. */
  predicate ReceiptFits(e: EnvironmentReceipt, id: string) {
    && e.reference == id && Hex(e.digest, 64)
    && if e.replaced then Hex(e.previousDigest, 64) && e.backupName == ".env.previous-" + id
       else e.previousDigest == "" && e.backupName == ""
  }

  predicate MarkerFits(m: Marker, t: Transaction) {
    && m.schemaVersion == 1 && 0 < |Trim(m.installerVersion)| <= 64 && m.installedAt > 0
    && m.selectedUI == t.selectedUI && m.mode == t.mode && |m.artifactHash| == |m.manifestHash| == 64
    && forall c | c in m.artifactHash || c in m.manifestHash :: c in "0123456789abcdefABCDEF"
  }

  lemma HexMeans(s: string, n: nat)
    ensures Hex(s, n) <==> |s| == n && LowerHex(s)
  {
    if |s| == n && LowerHex(s) {
      forall c | c in s ensures c in "0123456789abcdef" {
        var i :| 0 <= i < |s| && s[i] == c;
        assert '0' <= s[i] <= '9' || 'a' <= s[i] <= 'f';
        HexListed(c);
      }
    } else if Hex(s, n) {
      forall i | 0 <= i < |s| ensures '0' <= s[i] <= '9' || 'a' <= s[i] <= 'f' {
        assert s[i] in s;
      }
    }
  }

  lemma HexListed(c: char)
    ensures HexDigit(c) <==> c in "0123456789abcdefABCDEF"
    ensures '0' <= c <= '9' || 'a' <= c <= 'f' <==> c in "0123456789abcdef"
  {
    var s, l := "0123456789abcdefABCDEF", "0123456789abcdef";
    if '0' <= c <= '9' {
      assert s[c as int - '0' as int] == c == l[c as int - '0' as int];
    } else if 'a' <= c <= 'f' {
      assert s[10 + (c as int - 'a' as int)] == c == l[10 + (c as int - 'a' as int)];
    } else if 'A' <= c <= 'F' {
      assert s[16 + (c as int - 'A' as int)] == c;
    }
  }

  lemma HashMeans(s: string)
    ensures ValidHash(s) <==> |s| == 64 && forall c | c in s :: c in "0123456789abcdefABCDEF"
  {
    if ValidHash(s) {
      forall c | c in s ensures c in "0123456789abcdefABCDEF" {
        var i :| 0 <= i < |s| && s[i] == c;
        HexListed(s[i]);
      }
    } else if |s| == 64 && forall c | c in s :: c in "0123456789abcdefABCDEF" {
      forall i | 0 <= i < |s| ensures HexDigit(s[i]) {
        assert s[i] in s;
        HexListed(s[i]);
      }
    }
  }

  /** The name demanded of a backup always passes the check of backup names. */
  lemma BackupNamePasses(id: string)
    requires ValidID(id)
    ensures ValidBackupName(".env.previous-" + id)
  {
    var name := ".env.previous-" + id;
    assert forall i | 8 <= i < 40 :: id[i] == id[8..][i - 8];
    assert name[0] == '.' && name[|name| - 1] == id[8..][31];
    assert id[..8] == "install-";
    forall c | c in name ensures c !in "/\\\0\r\n" {
      var i :| 0 <= i < |name| && name[i] == c;
      if i < 14 {
        assert name[i] == ".env.previous-"[i];
      } else if i < 22 {
        assert name[i] == id[..8][i - 14];
      } else {
        assert name[i] == id[8..][i - 22];
      }
    }
  }

  /** The records `Validate` accepts, field by field. */
  lemma ValidMeans(t: Transaction)
    ensures ValidTransaction(t) <==>
            && t.schema == 1 && t.owner == "server-installer"
            && |t.id| == 40 && t.id[..8] == "install-" && Hex(t.id[8..], 32)
            && t.selectedUI in {Antd, Ele, Naive} && t.mode in {Embedded, Standalone, APIOnly, Dev}
            && t.phase in {Applying, Retryable, CompensationPending} && t.updatedAt > 0
            && Hex(t.databaseTarget, 64) && t.currentStep in {Schema, Identity, Environment, Lock, Failed}
            && (forall s | s in t.completedSteps :: s in {Plan, Database, Redis, Schema, Identity, Environment})
            && (forall i, j | 0 <= i < j < |t.completedSteps| :: t.completedSteps[i] != t.completedSteps[j])
            && (t.identity.Some? ==> t.identity.value.reference == t.id)
            && (t.environmentIntent == "" || t.environmentIntent == t.id)
            && (t.environment.Some? ==> ReceiptFits(t.environment.value, t.id))
            && (t.marker.Some? ==> MarkerFits(t.marker.value, t))
  {
    HexMeans(t.databaseTarget, 64);
    if |t.id| == 40 { HexMeans(t.id[8..], 32); }
    if t.environment.Some? {
      HexMeans(t.environment.value.digest, 64);
      HexMeans(t.environment.value.previousDigest, 64);
      if ValidID(t.id) { BackupNamePasses(t.id); }
    }
    if t.marker.Some? {
      HashMeans(t.marker.value.artifactHash);
      HashMeans(t.marker.value.manifestHash);
    }
  }

  /** `sideEffectFreeRetryableTransaction`. */
  predicate SideEffectFree(t: Transaction) {
    t.phase.Retryable? && ReceiptFree(t)
  }

  predicate ReceiptFree(t: Transaction) {
    t.identity.None? && t.environmentIntent == "" && t.environment.None? && t.marker.None?
  }

  /** `completedTransactionMatchesMarker`. */
  predicate MatchesMarker(t: Transaction, m: Marker) {
    && t.phase.Applying? && t.currentStep == Lock
    && t.selectedUI == m.selectedUI && t.mode == m.mode && t.marker == Some(m)
    && t.identity.Some? && t.environment.Some? && t.environmentIntent == t.id
    && t.completedSteps == STEP_ORDER
  }

  /** The steps a record lists are the first few of `STEP_ORDER`, in order. */
  predicate StepPrefix(steps: seq<Step>) { steps <= STEP_ORDER }

  /** What every record a run writes satisfies: it validates, its completed
      steps are a prefix of the fixed order, and a retryable one names nothing. */
  predicate Recordable(t: Transaction) {
    ValidTransaction(t) && StepPrefix(t.completedSteps) && (t.phase.Retryable? ==> ReceiptFree(t))
  }

  predicate NamesIdentity(t: Transaction, reference: string) {
    t.identity == Some(IdentityReceipt(reference))
  }

  predicate NamesEnvironment(t: Transaction, reference: string) {
    || (t.environmentIntent != "" && t.environmentIntent == reference)
    || (t.environment.Some? && t.environment.value.reference == reference)
  }
}
