/** The update check of Sources/UpdateManager.swift: reading the latest release's tag and
    deciding, by a numeric component-wise comparison, whether it is newer than the running
    version. */
module Updates {
  import opened Wrappers
  import opened Text

  // ---------------------------------------------------------------------------
  // Splitting a version string

  /** The length of the first piece of `s`: up to the first `sep` or the end. */
  function PieceLength(s: string, sep: char): (n: nat)
    requires s != [] && s[0] != sep
    ensures 0 < n <= |s| && sep !in s[..n] && (n == |s| || s[n] == sep)
    decreases |s|
  {
    if |s| == 1 || s[1] == sep then 1
    else
      var m := PieceLength(s[1..], sep);
      assert s[..m + 1] == [s[0]] + s[1..][..m];
      m + 1
  }

  /** Swift's `split(separator:)`, which omits empty pieces. */
  function Split(s: string, sep: char): (r: seq<string>)
    ensures forall i :: 0 <= i < |r| ==> r[i] != [] && sep !in r[i]
    decreases |s|
  {
    if s == [] then []
    else if s[0] == sep then Split(s[1..], sep)
    else
      var n := PieceLength(s, sep);
      [s[..n]] + Split(s[n..], sep)
  }

  predicate Piece(p: string, sep: char) { p != [] && sep !in p }

  /** A piece followed by the end or by a separator is split off whole. */
  lemma SplitPiece(p: string, rest: string, sep: char)
    requires Piece(p, sep) && (rest == [] || rest[0] == sep)
    ensures Split(p + rest, sep) == [p] + Split(rest, sep)
  {
    var s := p + rest;
    var n := PieceLength(s, sep);
    assert s[..|p|] == p;
    assert rest != [] ==> s[|p|] == sep;
    assert n == |p|;
    assert s[..n] == p;
    assert s[n..] == rest;
  }

  /** Splitting undoes joining with the separator, for pieces that are non-empty and do
      not contain it. */
  lemma {:induction false} SplitJoin(parts: seq<string>, sep: char)
    requires forall i :: 0 <= i < |parts| ==> Piece(parts[i], sep)
    ensures Split(Join(parts, [sep]), sep) == parts
    decreases |parts|
  {
    if |parts| == 0 {
    } else if |parts| == 1 {
      SplitPiece(parts[0], [], sep);
      assert parts[0] + [] == parts[0];
      assert Join(parts, [sep]) == parts[0];
      assert Split([], sep) == [];
    } else {
      var rest := Join(parts[1..], [sep]);
      SplitJoin(parts[1..], sep);
      assert Join(parts, [sep]) == parts[0] + ([sep] + rest);
      SplitPiece(parts[0], [sep] + rest, sep);
      assert ([sep] + rest)[1..] == rest;
      assert [parts[0]] + parts[1..] == parts;
    }
  }

  // ---------------------------------------------------------------------------
  // Components and their comparison

  /** `compactMap { Int($0) }`: the pieces that parse as `Int`, in order. */
  function ParsedComponents(pieces: seq<string>): (r: seq<int>)
    ensures |r| <= |pieces|
    ensures forall i :: 0 <= i < |r| ==> Int64Min <= r[i] <= Int64Max
  {
    if pieces == [] then []
    else match ParseInt(pieces[0])
      case Some(v) => [v] + ParsedComponents(pieces[1..])
      case None => ParsedComponents(pieces[1..])
  }

  /** The numeric components of a version string. */
  function Components(version: string): (r: seq<int>)
    ensures |r| <= |Split(version, '.')|
    ensures forall i :: 0 <= i < |r| ==> Int64Min <= r[i] <= Int64Max
  {
    ParsedComponents(Split(version, '.'))
  }

  /** A piece that does not parse contributes nothing, wherever it stands. */
  lemma {:induction false} UnparsablePieceDropped(before: seq<string>, p: string, after: seq<string>)
    requires ParseInt(p).None?
    ensures ParsedComponents(before + [p] + after) == ParsedComponents(before + after)
    decreases |before|
  {
    if before == [] {
      assert ([p] + after)[1..] == after;
      assert before + [p] + after == [p] + after;
      assert before + after == after;
    } else {
      UnparsablePieceDropped(before[1..], p, after);
      assert (before + [p] + after)[1..] == before[1..] + [p] + after;
      assert (before + after)[1..] == before[1..] + after;
    }
  }

  /** Component `i` of `v`, missing components counting as 0. */
  function Padded(v: seq<int>, i: nat): int {
    if i < |v| then v[i] else 0
  }

  function Longer(a: seq<int>, b: seq<int>): nat {
    if |a| > |b| then |a| else |b|
  }

  /** `a` is newer than `b`: at the first position where their zero-padded components
      differ, `a`'s is the larger. */
  predicate Newer(a: seq<int>, b: seq<int>)
    ensures Newer(a, b) ==> !SameVersion(a, b)
  {
    exists i: nat :: i < Longer(a, b) && Padded(a, i) > Padded(b, i)
                     && forall j: nat :: j < i ==> Padded(a, j) == Padded(b, j)
  }

  /** Two versions denote the same release when every padded component agrees. */
  ghost predicate SameVersion(a: seq<int>, b: seq<int>) {
    forall i: nat :: Padded(a, i) == Padded(b, i)
  }

  /** `isNewerVersion(remote, than: local)` as a property of the two strings. */
  predicate NewerVersion(remote: string, local: string)
    ensures NewerVersion(remote, local) ==> remote != local && !SameVersion(Components(remote), Components(local))
  {
    Newer(Components(remote), Components(local))
  }

  /** The first difference decides against `a`. */
  lemma NotNewerAt(a: seq<int>, b: seq<int>, i: nat)
    requires forall j: nat :: j < i ==> Padded(a, j) == Padded(b, j)
    requires Padded(a, i) < Padded(b, i)
    ensures !Newer(a, b)
  {
    forall k: nat | k < Longer(a, b) && Padded(a, k) > Padded(b, k)
      ensures exists j: nat :: j < k && Padded(a, j) != Padded(b, j)
    {
      assert i < k;
      assert Padded(a, i) != Padded(b, i);
    }
  }

  /** No version is newer than itself. */
  lemma NewerIrreflexive(a: seq<int>)
    ensures !Newer(a, a)
  {
  }

  /** If `a` is newer than `b`, `b` is not newer than `a`. */
  lemma NewerAsymmetric(a: seq<int>, b: seq<int>)
    requires Newer(a, b)
    ensures !Newer(b, a)
  {
    var k: nat :| k < Longer(a, b) && Padded(a, k) > Padded(b, k)
                  && forall j: nat :: j < k ==> Padded(a, j) == Padded(b, j);
    NotNewerAt(b, a, k);
  }

  lemma FirstDifference(a: seq<int>, b: seq<int>, k: nat) returns (m: nat)
    requires Padded(a, k) != Padded(b, k)
    ensures m <= k && Padded(a, m) != Padded(b, m)
    ensures forall j: nat :: j < m ==> Padded(a, j) == Padded(b, j)
    decreases k
  {
    if forall j: nat :: j < k ==> Padded(a, j) == Padded(b, j) {
      m := k;
    } else {
      var j: nat :| j < k && Padded(a, j) != Padded(b, j);
      m := FirstDifference(a, b, j);
    }
  }

  /** Any two versions are the same release, or exactly one of them is newer. */
  lemma NewerTrichotomy(a: seq<int>, b: seq<int>)
    ensures SameVersion(a, b) || Newer(a, b) || Newer(b, a)
  {
    if !SameVersion(a, b) {
      var k: nat :| Padded(a, k) != Padded(b, k);
      var m := FirstDifference(a, b, k);
      assert m < Longer(a, b);
      if Padded(a, m) > Padded(b, m) {
        assert Newer(a, b);
      } else {
        assert Longer(b, a) == Longer(a, b);
        assert Newer(b, a);
      }
    }
  }

  /** Releases that differ only in trailing zero components ("1.2" and "1.2.0") are not
      newer than one another, and compare alike against every other version. */
  lemma SameVersionNotNewer(a: seq<int>, a': seq<int>, b: seq<int>)
    requires SameVersion(a, a')
    ensures !Newer(a, a') && !Newer(a', a)
    ensures Newer(a, b) <==> Newer(a', b)
    ensures Newer(b, a) <==> Newer(b, a')
  {
    if Newer(a, b) {
      var k: nat :| k < Longer(a, b) && Padded(a, k) > Padded(b, k)
                    && forall j: nat :: j < k ==> Padded(a, j) == Padded(b, j);
      assert k < Longer(a', b) && Padded(a', k) > Padded(b, k)
             && forall j: nat :: j < k ==> Padded(a', j) == Padded(b, j);
    }
    if Newer(a', b) {
      var k: nat :| k < Longer(a', b) && Padded(a', k) > Padded(b, k)
                    && forall j: nat :: j < k ==> Padded(a', j) == Padded(b, j);
      assert k < Longer(a, b) && Padded(a, k) > Padded(b, k)
             && forall j: nat :: j < k ==> Padded(a, j) == Padded(b, j);
    }
    if Newer(b, a) {
      var k: nat :| k < Longer(b, a) && Padded(b, k) > Padded(a, k)
                    && forall j: nat :: j < k ==> Padded(b, j) == Padded(a, j);
      assert k < Longer(b, a') && Padded(b, k) > Padded(a', k)
             && forall j: nat :: j < k ==> Padded(b, j) == Padded(a', j);
    }
    if Newer(b, a') {
      var k: nat :| k < Longer(b, a') && Padded(b, k) > Padded(a', k)
                    && forall j: nat :: j < k ==> Padded(b, j) == Padded(a', j);
      assert k < Longer(b, a) && Padded(b, k) > Padded(a, k)
             && forall j: nat :: j < k ==> Padded(b, j) == Padded(a, j);
    }
  }

  lemma ParseSmall(s: string, n: nat)
    requires s == NatToString(n) && n <= Int64Max
    ensures ParseInt(s) == Some(n)
  {
    ParseIntToString(n);
  }

  /** Pieces that each parse are read back one component per piece, in order. */
  lemma {:induction false} ParsedAll(pieces: seq<string>, values: seq<int>)
    requires |pieces| == |values|
    requires forall i :: 0 <= i < |pieces| ==> ParseInt(pieces[i]) == Some(values[i])
    ensures ParsedComponents(pieces) == values
    decreases |pieces|
  {
    if pieces != [] {
      ParsedAll(pieces[1..], values[1..]);
      assert values == [values[0]] + values[1..];
    }
  }

  /** A version written as dot-joined numbers has those numbers as its components. */
  lemma VersionComponents(pieces: seq<string>, values: seq<int>)
    requires |pieces| == |values|
    requires forall i :: 0 <= i < |pieces| ==> Piece(pieces[i], '.') && ParseInt(pieces[i]) == Some(values[i])
    ensures Components(Join(pieces, ".")) == values
  {
    SplitJoin(pieces, '.');
    ParsedAll(pieces, values);
  }

  lemma ComponentsOneTen()
    ensures Components("1.10") == [1, 10]
  {
    assert NatToString(1) == "1";
    assert NatToString(10) == "10";
    ParseSmall("1", 1);
    ParseSmall("10", 10);
    assert Join(["1", "10"], ".") == "1.10";
    VersionComponents(["1", "10"], [1, 10]);
  }

  lemma ComponentsOneNine()
    ensures Components("1.9") == [1, 9]
  {
    assert NatToString(1) == "1";
    assert NatToString(9) == "9";
    ParseSmall("1", 1);
    ParseSmall("9", 9);
    assert Join(["1", "9"], ".") == "1.9";
    VersionComponents(["1", "9"], [1, 9]);
  }

  lemma ComponentsOneTwo()
    ensures Components("1.2") == [1, 2]
  {
    assert NatToString(1) == "1";
    assert NatToString(2) == "2";
    ParseSmall("1", 1);
    ParseSmall("2", 2);
    assert Join(["1", "2"], ".") == "1.2";
    VersionComponents(["1", "2"], [1, 2]);
  }

  lemma ComponentsOneTwoZero()
    ensures Components("1.2.0") == [1, 2, 0]
  {
    assert NatToString(0) == "0";
    assert NatToString(1) == "1";
    assert NatToString(2) == "2";
    ParseSmall("0", 0);
    ParseSmall("1", 1);
    ParseSmall("2", 2);
    assert Join(["1", "2", "0"], ".") == "1.2.0";
    VersionComponents(["1", "2", "0"], [1, 2, 0]);
  }

  /** Components compare as numbers, not as text: "1.10" is newer than "1.9". */
  lemma TenIsNewerThanNine()
    ensures NewerVersion("1.10", "1.9")
    ensures !NewerVersion("1.9", "1.10")
  {
    ComponentsOneTen();
    ComponentsOneNine();
    assert Padded([1, 10], 1) > Padded([1, 9], 1);
    assert Padded([1, 10], 0) == Padded([1, 9], 0);
    NewerAsymmetric([1, 10], [1, 9]);
  }

  /** A missing component counts as 0: "1.2" and "1.2.0" are not newer than each other. */
  lemma TrailingZeroIgnored()
    ensures !NewerVersion("1.2", "1.2.0") && !NewerVersion("1.2.0", "1.2")
  {
    ComponentsOneTwo();
    ComponentsOneTwoZero();
    assert SameVersion([1, 2], [1, 2, 0]) by {
      forall i: nat ensures Padded([1, 2], i) == Padded([1, 2, 0], i) {
      }
    }
    SameVersionNotNewer([1, 2], [1, 2, 0], []);
  }

  // ---------------------------------------------------------------------------
  // The tag

  /** `replacingOccurrences(of: "v", with: "")`: every lower-case 'v' removed. */
  function RemoveV(s: string): (r: string)
    ensures 'v' !in r && |r| <= |s|
    ensures 'v' !in s ==> r == s
  {
    if s == [] then []
    else if s[0] == 'v' then RemoveV(s[1..])
    else [s[0]] + RemoveV(s[1..])
  }

  /** Removing the 'v's works piece by piece: the characters kept from `a` come before
      those kept from `b`, so the order of the kept characters is the original order. */
  lemma {:induction false} RemoveVAppend(a: string, b: string)
    ensures RemoveV(a + b) == RemoveV(a) + RemoveV(b)
    decreases |a|
  {
    if a != [] {
      assert (a + b)[0] == a[0] && (a + b)[1..] == a[1..] + b;
      RemoveVAppend(a[1..], b);
    } else {
      assert a + b == b;
    }
  }

  /** Removing the 'v's keeps every other character with its multiplicity, and only those. */
  lemma {:induction false} RemoveVKeepsOthers(s: string)
    ensures multiset(RemoveV(s)) == multiset(s)[ 'v' := 0 ]
    decreases |s|
  {
    if s != [] {
      RemoveVKeepsOthers(s[1..]);
      assert s == [s[0]] + s[1..];
      assert multiset(s) == multiset([s[0]]) + multiset(s[1..]);
    }
  }

  // ---------------------------------------------------------------------------
  // The manager

  /** The JSON body of a 200 reply: not JSON (the parser's error description), a JSON
      value without a string `tag_name` member, or the tag. */
  datatype Body = Unparseable(description: string) | NoTagName | Tag(name: string)

  /** What `URLSession` answers: a thrown error, a reply that is not HTTP, or an HTTP
      reply with its status code and body. */
  datatype Response = TransportError(description: string) | NotHttp | Http(statusCode: int, body: Body)

  const DefaultVersion := "1.0.0"
  const FailedToCheck := "Failed to check for updates"
  const InvalidResponse := "Invalid response"
  const NetworkErrorPrefix := "Network error: "

  /** The error `checkForUpdates` reports for a response, if any. */
  function CheckError(response: Response): (r: Option<string>)
    ensures r.None? <==> response.Http? && response.statusCode == 200 && response.body.Tag?
  {
    match response
    case TransportError(d) => Some(NetworkErrorPrefix + d)
    case NotHttp => Some(FailedToCheck)
    case Http(status, body) =>
      if status != 200 then Some(FailedToCheck)
      else match body
        case Unparseable(d) => Some(NetworkErrorPrefix + d)
        case NoTagName => Some(InvalidResponse)
        case Tag(_) => None
  }

  class UpdateManager {
    var isChecking: bool
    var updateAvailable: bool
    var latestVersion: Option<string>
    var errorMessage: Option<string>
    const currentVersion: string

    /** The bundle's short version string, or "1.0.0" when it has none. */
    constructor (bundleVersion: Option<string>)
      ensures !isChecking && !updateAvailable && latestVersion.None? && errorMessage.None?
      ensures currentVersion == (if bundleVersion.Some? then bundleVersion.value else DefaultVersion)
    {
      isChecking := false;
      updateAvailable := false;
      latestVersion := None;
      errorMessage := None;
      currentVersion := if bundleVersion.Some? then bundleVersion.value else DefaultVersion;
    }

    /** `isNewerVersion(_:than:)`: the loop over the longer component list with early
        returns. */
    static method IsNewerVersion(remote: string, local: string) returns (newer: bool)
      ensures newer == NewerVersion(remote, local)
    {
      var r := Components(remote);
      var l := Components(local);
      var n := if |r| > |l| then |r| else |l|;
      var i := 0;
      while i < n
        invariant 0 <= i <= n
        invariant forall j: nat :: j < i ==> Padded(r, j) == Padded(l, j)
      {
        var rc := if i < |r| then r[i] else 0;
        var lc := if i < |l| then l[i] else 0;
        if rc > lc {
          assert Padded(r, i) > Padded(l, i);
          return true;
        }
        if rc < lc {
          NotNewerAt(r, l, i);
          return false;
        }
        i := i + 1;
      }
      assert SameVersion(r, l) by {
        forall j: nat ensures Padded(r, j) == Padded(l, j) {
        }
      }
      newer := false;
    }

    /** `checkForUpdates()`: clears the error and the update flag, then reports the
        response's error, or records the tag without its 'v's as the latest version and
        raises the flag when it is newer than the running version. A failed check keeps
        the previous `latestVersion`. */
    method CheckForUpdates(response: Response)
      modifies this`isChecking, this`updateAvailable, this`latestVersion, this`errorMessage
      ensures !isChecking
      ensures errorMessage == CheckError(response)
      ensures CheckError(response).Some? ==> !updateAvailable && latestVersion == old(latestVersion)
      ensures CheckError(response).None? ==>
        && latestVersion == Some(RemoveV(response.body.name))
        && updateAvailable == NewerVersion(RemoveV(response.body.name), currentVersion)
    {
      isChecking := true;
      errorMessage := None;
      updateAvailable := false;
      match response {
        case TransportError(d) =>
          errorMessage := Some(NetworkErrorPrefix + d);
        case NotHttp =>
          errorMessage := Some(FailedToCheck);
        case Http(status, body) =>
          if status != 200 {
            errorMessage := Some(FailedToCheck);
          } else {
            match body {
              case Unparseable(d) =>
                errorMessage := Some(NetworkErrorPrefix + d);
              case NoTagName =>
                errorMessage := Some(InvalidResponse);
              case Tag(name) =>
                var remoteVersion := RemoveV(name);
                latestVersion := Some(remoteVersion);
                var newer := IsNewerVersion(remoteVersion, currentVersion);
                if newer {
                  updateAvailable := true;
                }
            }
          }
      }
      isChecking := false;
    }
  }
}
