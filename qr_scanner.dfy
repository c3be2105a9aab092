/**
 * The QR panel: generating a hash key and QR data for an evidence id, storing
 * the key on the current user, and checking a scanned code against the keys
 * the user holds.
 *
 * `JSON.stringify` / `JSON.parse` are not modelled as text: the scanned code
 * is kept as what parsing it gives (nothing, the payload, or a parse error).
 *
 * Long texts are written as concatenations of short pieces; the value is the
 * same string, and short literals keep the proofs cheap.
 */
module QRScanner {
  import opened Wrappers
  import opened Notifications
  import opened BlockchainUtils

  /** One entry of `currentUser.evidenceKeys`; `timestamp` is the `toISOString()` text. */
  datatype EvidenceKey = EvidenceKey(evidenceId: string, hashKey: string, timestamp: string)

  /**
   * `scannedCode`: the empty string, the JSON text of a payload, or text that
   * `JSON.parse` rejects.
   */
  datatype ScannedCode = Empty | Encoded(payload: QrPayload) | Malformed

  /** The logged-in user object, shared with the rest of the page and mutated in place. */
  class User {
    const username: string
    var evidenceKeys: Option<seq<EvidenceKey>>

    constructor(username: string)
      ensures this.username == username && evidenceKeys == None
    {
      this.username := username;
      evidenceKeys := None;
    }
  }

  /** `keys.some(key => key.evidenceId === evidenceId && key.hashKey === hashKey)`. */
  function AnyKeyMatches(keys: seq<EvidenceKey>, evidenceId: string, hashKey: string): (r: bool)
    ensures r <==> exists i :: 0 <= i < |keys| && keys[i].evidenceId == evidenceId && keys[i].hashKey == hashKey
  {
    if keys == [] then false
    else
      var rest := AnyKeyMatches(keys[1..], evidenceId, hashKey);
      assert rest ==> exists i :: 1 <= i < |keys| && keys[i].evidenceId == evidenceId && keys[i].hashKey == hashKey by {
        if rest {
          var j :| 0 <= j < |keys[1..]| && keys[1..][j].evidenceId == evidenceId && keys[1..][j].hashKey == hashKey;
          assert keys[j + 1] == keys[1..][j];
        }
      }
      (keys[0].evidenceId == evidenceId && keys[0].hashKey == hashKey) || rest
  }

  /** `currentUser.evidenceKeys?.some(...)`: an absent key list grants nothing. */
  predicate HasAccess(keys: Option<seq<EvidenceKey>>, evidenceId: string, hashKey: string) {
    keys.Some? && AnyKeyMatches(keys.value, evidenceId, hashKey)
  }

  /** The key list after `if (!evidenceKeys) evidenceKeys = []`. */
  function Stored(keys: Option<seq<EvidenceKey>>): seq<EvidenceKey> {
    if keys.Some? then keys.value else []
  }

  /** The four ways `handleAccessEvidence` ends. */
  datatype Access = NoData | InvalidFormat | Granted(evidenceId: string) | Denied(evidenceId: string)

  /** The decision `handleAccessEvidence` takes on a scanned code and the user's keys. */
  function Decide(code: ScannedCode, keys: Option<seq<EvidenceKey>>): (a: Access)
    ensures a == NoData <==> code == Empty
    ensures a == InvalidFormat <==> code == Malformed
    ensures code.Encoded? ==> (a.Granted? || a.Denied?) && a.evidenceId == code.payload.evidenceId
    ensures a.Granted? <==> (code.Encoded? && keys.Some? &&
      exists i :: 0 <= i < |keys.value| && keys.value[i].evidenceId == code.payload.evidenceId &&
        keys.value[i].hashKey == code.payload.hashKey)
  {
    match code
    case Empty => NoData
    case Malformed => InvalidFormat
    case Encoded(p) => if HasAccess(keys, p.evidenceId, p.hashKey) then Granted(p.evidenceId) else Denied(p.evidenceId)
  }

  /** The security alert raised on a denied access. */
  function UnauthorizedAlert(evidenceId: string, username: string): Notification {
    Notification("\U{26A0}\U{FE0F} SECURITY " + "ALERT: " + "Unauthorized " + "access attempt " + "to evidence " +
      evidenceId + " by " + username, Alert)
  }

  /** The toast each outcome shows. */
  function AccessToast(a: Access): Toast {
    match a
    case NoData => Toast("Error", "No QR code data " + "available", true)
    case InvalidFormat => Toast("Error", "Invalid QR code " + "format", true)
    case Granted(id) => Toast("Access Granted", "You have access " + "to evidence " + id, false)
    case Denied(_) => Toast("Access Denied", "You don't have " + "permission to " + "access this " + "evidence", true)
  }

  /** The `onNotification` calls each outcome makes: one alert on a denial, none otherwise. */
  function AccessAlerts(a: Access, username: string): (alerts: seq<Notification>)
    ensures |alerts| <= 1 && (alerts != [] <==> a.Denied?)
    ensures alerts != [] ==> alerts[0].severity == Alert
  {
    if a.Denied? then [UnauthorizedAlert(a.evidenceId, username)] else []
  }

  class Scanner {
    var scannedCode: ScannedCode
    var evidenceId: string
    var generatedHash: string
    var isScanning: bool
    const currentUser: User

    constructor(currentUser: User)
      ensures scannedCode == Empty && evidenceId == "" && generatedHash == "" && !isScanning
      ensures this.currentUser == currentUser
    {
      scannedCode := Empty;
      evidenceId := "";
      generatedHash := "";
      isScanning := false;
      this.currentUser := currentUser;
    }

    /** The evidence-id input's `onChange`. */
    method SetEvidenceId(text: string)
      modifies this
      ensures evidenceId == text
      ensures scannedCode == old(scannedCode) && generatedHash == old(generatedHash) && isScanning == old(isScanning)
    {
      evidenceId := text;
    }

    /**
     * `handleScanQR`: an empty evidence id only shows an error; otherwise the
     * scan starts and, with the delay not modelled, `FinishScan` runs at once.
     * `hashTime` and `qrTime` are the two `Date.now()` readings, `salt` and
     * `randomHex` the two `Math.random()` texts, `isoTime` the
     * `new Date().toISOString()` text.
     */
    method ScanQR(hashTime: nat, qrTime: nat, salt: string, randomHex: string, isoTime: string) returns (toast: Toast)
      modifies this, currentUser
      ensures evidenceId == old(evidenceId)
      ensures old(evidenceId) == "" ==>
        toast == Toast("Error", "Please enter an " + "evidence ID to " + "generate QR code", true) &&
        scannedCode == old(scannedCode) && generatedHash == old(generatedHash) && isScanning == old(isScanning) &&
        currentUser.evidenceKeys == old(currentUser.evidenceKeys)
      ensures old(evidenceId) != "" ==>
        generatedHash == BlockchainHash(evidenceId, currentUser.username, hashTime, salt, randomHex) &&
        scannedCode == Encoded(GenerateQRCodeData(evidenceId, generatedHash, qrTime)) &&
        currentUser.evidenceKeys == Some(Stored(old(currentUser.evidenceKeys)) + [EvidenceKey(evidenceId, generatedHash, isoTime)]) &&
        !isScanning &&
        toast == Toast("QR Code Generated", "Blockchain hash " + "generated for " + "evidence " + evidenceId, false)
      ensures old(evidenceId) != "" ==> Decide(scannedCode, currentUser.evidenceKeys) == Granted(evidenceId)
    {
      if evidenceId == "" {
        toast := Toast("Error", "Please enter an " + "evidence ID to " + "generate QR code", true);
        return;
      }
      isScanning := true;
      toast := FinishScan(hashTime, qrTime, salt, randomHex, isoTime);
    }

    /**
     * The `setTimeout` callback of `handleScanQR`: hash, QR data, the new key
     * appended to the user's keys (the list created if absent), the toast, and
     * the end of the scan.
     */
    method FinishScan(hashTime: nat, qrTime: nat, salt: string, randomHex: string, isoTime: string) returns (toast: Toast)
      modifies this, currentUser
      ensures evidenceId == old(evidenceId)
      ensures generatedHash == BlockchainHash(evidenceId, currentUser.username, hashTime, salt, randomHex)
      ensures scannedCode == Encoded(GenerateQRCodeData(evidenceId, generatedHash, qrTime))
      ensures currentUser.evidenceKeys == Some(Stored(old(currentUser.evidenceKeys)) + [EvidenceKey(evidenceId, generatedHash, isoTime)])
      ensures !isScanning
      ensures toast == Toast("QR Code Generated", "Blockchain hash " + "generated for " + "evidence " + evidenceId, false)
      ensures Decide(scannedCode, currentUser.evidenceKeys) == Granted(evidenceId)
    {
      var hashKey := GenerateBlockchainHash(evidenceId, currentUser.username, hashTime, salt, randomHex);
      var qrData := GenerateQRCodeData(evidenceId, hashKey, qrTime);
      generatedHash := hashKey;
      scannedCode := Encoded(qrData);
      if currentUser.evidenceKeys == None {
        currentUser.evidenceKeys := Some([]);
      }
      var key := EvidenceKey(evidenceId, hashKey, isoTime);
      currentUser.evidenceKeys := Some(currentUser.evidenceKeys.value + [key]);
      ScanThenAccessGranted(old(currentUser.evidenceKeys), key, qrTime);
      toast := Toast("QR Code Generated", "Blockchain hash " + "generated for " + "evidence " + evidenceId, false);
      isScanning := false;
    }

    /** `handleAccessEvidence`: the toast it shows and the notifications it raises; it changes no state. */
    method AccessEvidence() returns (toast: Toast, alerts: seq<Notification>)
      ensures var a := Decide(scannedCode, currentUser.evidenceKeys);
        toast == AccessToast(a) && alerts == AccessAlerts(a, currentUser.username)
      ensures scannedCode == Empty ==> toast.description == "No QR code data " + "available" && alerts == []
      ensures alerts != [] ==> alerts == [UnauthorizedAlert(scannedCode.payload.evidenceId, currentUser.username)]
    {
      if scannedCode == Empty {
        toast := Toast("Error", "No QR code data " + "available", true);
        alerts := [];
        return;
      }
      match scannedCode {
        case Malformed =>
          toast := Toast("Error", "Invalid QR code " + "format", true);
          alerts := [];
        case Encoded(qrData) =>
          var hasAccess := HasAccess(currentUser.evidenceKeys, qrData.evidenceId, qrData.hashKey);
          if hasAccess {
            toast := Toast("Access Granted", "You have access " + "to evidence " + qrData.evidenceId, false);
            alerts := [];
          } else {
            alerts := [UnauthorizedAlert(qrData.evidenceId, currentUser.username)];
            toast := Toast("Access Denied", "You don't have " + "permission to " + "access this " + "evidence", true);
          }
      }
    }
  }

  /**
   * Generate, then check: the QR data made for a key that has just been
   * appended to the user's keys is granted access.
   */
  lemma ScanThenAccessGranted(keys: Option<seq<EvidenceKey>>, key: EvidenceKey, now: nat)
    ensures Decide(Encoded(GenerateQRCodeData(key.evidenceId, key.hashKey, now)), Some(Stored(keys) + [key]))
      == Granted(key.evidenceId)
  {
    var all := Stored(keys) + [key];
    assert all[|all| - 1] == key;
  }

  /** Appending a key grants access to exactly what was granted before plus the new key's pair. */
  lemma AppendKeyAccess(keys: Option<seq<EvidenceKey>>, key: EvidenceKey, evidenceId: string, hashKey: string)
    ensures HasAccess(Some(Stored(keys) + [key]), evidenceId, hashKey) <==>
      HasAccess(keys, evidenceId, hashKey) || (key.evidenceId == evidenceId && key.hashKey == hashKey)
  {
    var all := Stored(keys) + [key];
    if HasAccess(keys, evidenceId, hashKey) {
      var i :| 0 <= i < |keys.value| && keys.value[i].evidenceId == evidenceId && keys.value[i].hashKey == hashKey;
      assert all[i] == keys.value[i];
    }
    if key.evidenceId == evidenceId && key.hashKey == hashKey {
      assert all[|all| - 1] == key;
    }
    if HasAccess(Some(all), evidenceId, hashKey) && !(key.evidenceId == evidenceId && key.hashKey == hashKey) {
      var i :| 0 <= i < |all| && all[i].evidenceId == evidenceId && all[i].hashKey == hashKey;
      assert i < |Stored(keys)| && all[i] == Stored(keys)[i];
    }
  }
}
