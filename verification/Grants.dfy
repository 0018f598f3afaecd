/** principal.go: deriving a principal from the permissions the server asserts. */
module Grants {
  import opened Text

  datatype Principal = Principal(persona: string, account: string)

  const SIGN_RECORD_SUFFIX := ".sign.record"

  /** What one subject of the allow list does to the scan. `Panics` is the Go slice-bounds panic. */
  datatype Match = Skip | Hit(who: Principal) | Panics

  function MatchSubject(subj: string, root: string): Match {
    var prefix := root + ".";
    if !HasPrefix(subj, prefix) || !HasSuffix(subj, SIGN_RECORD_SUFFIX) then Skip
    else if |prefix| > |subj| - |SIGN_RECORD_SUFFIX| then Panics
    else
      var parts := Split(subj[|prefix|..|subj| - |SIGN_RECORD_SUFFIX|], '.');
      if |parts| != 2 || parts[0] == "" || parts[1] == "" then Skip
      else Hit(Principal(parts[1], parts[0]))
  }

  /** The first-match scan of an allow list: Skip when nothing in it is a grant. */
  function PrincipalFromAllows(allows: seq<string>, root: string): Match {
    if allows == [] then Skip
    else if MatchSubject(allows[0], root).Skip? then PrincipalFromAllows(allows[1..], root)
    else MatchSubject(allows[0], root)
  }

  /** A token of a subject: non-empty and dot-free. */
  predicate Token(s: string) {
    s != "" && '.' !in s
  }

  predicate WellFormed(who: Principal) {
    Token(who.persona) && Token(who.account)
  }

  /** The grant the deployment's scope template expands to for a principal. */
  function Grant(who: Principal, root: string): string {
    root + "." + who.account + "." + who.persona + SIGN_RECORD_SUFFIX
  }

  /** The subjects on which the slice expression is out of bounds. */
  predicate Overlaps(subj: string, root: string) {
    || subj == root + SIGN_RECORD_SUFFIX
    || (HasSuffix(root, ".sign") && subj == root + ".record")
  }

  lemma GrantIsMatched(who: Principal, root: string)
    requires WellFormed(who)
    ensures MatchSubject(Grant(who, root), root) == Hit(who)
  {
    var subj := Grant(who, root);
    var prefix := root + ".";
    var middle := who.account + "." + who.persona;
    assert subj == prefix + middle + SIGN_RECORD_SUFFIX;
    assert subj[|prefix|..|subj| - |SIGN_RECORD_SUFFIX|] == middle;
    SplitHead(who.account, who.persona, '.');
    SplitFree(who.persona, '.');
    assert Split(middle, '.') == [who.account, who.persona];
  }

  lemma MatchedIsGrant(subj: string, root: string)
    requires MatchSubject(subj, root).Hit?
    ensures WellFormed(MatchSubject(subj, root).who)
    ensures subj == Grant(MatchSubject(subj, root).who, root)
  {
    var prefix := root + ".";
    var middle := subj[|prefix|..|subj| - |SIGN_RECORD_SUFFIX|];
    var parts := Split(middle, '.');
    JoinSplit(middle, '.');
    SplitCuts(middle, '.');
    assert parts[1..] == [parts[1]];
    assert middle == parts[0] + "." + parts[1];
    assert subj == prefix + middle + SIGN_RECORD_SUFFIX;
    assert parts[0] in parts && parts[1] in parts;
  }

  /** A subject names a principal exactly when it is that principal's grant. */
  lemma HitIffGrant(subj: string, root: string, who: Principal)
    ensures MatchSubject(subj, root) == Hit(who) <==>
            && who.account != "" && '.' !in who.account && who.persona != "" && '.' !in who.persona
            && subj == root + "." + who.account + "." + who.persona + ".sign.record"
  {
    if MatchSubject(subj, root) == Hit(who) {
      MatchedIsGrant(subj, root);
    }
    if WellFormed(who) && subj == Grant(who, root) {
      GrantIsMatched(who, root);
    }
  }

  /** The scan panics on a subject exactly when prefix and suffix overlap in it. */
  lemma PanicsIffOverlaps(subj: string, root: string)
    ensures MatchSubject(subj, root).Panics? <==> Overlaps(subj, root)
    ensures Overlaps(subj, root) <==>
            || subj == root + ".sign.record"
            || (|root| >= 5 && root[|root| - 5..] == ".sign" && subj == root + ".record")
  {
    var prefix := root + ".";
    var n := |subj| - |SIGN_RECORD_SUFFIX|;
    if subj == root + SIGN_RECORD_SUFFIX {
      assert subj[..|prefix|] == prefix;
    } else if HasSuffix(root, ".sign") && subj == root + ".record" {
      assert subj[..|prefix|] == prefix;
      assert subj[n..] == root[|root| - 5..] + ".record";
    }
    if MatchSubject(subj, root).Panics? {
      // The suffix starts inside the prefix, at offset n <= |root|; the prefix ends in a dot.
      assert subj[n..] == SIGN_RECORD_SUFFIX && subj[..|prefix|] == prefix;
      assert subj[|root|] == '.' == SIGN_RECORD_SUFFIX[|root| - n];
      assert |root| - n == 0 || |root| - n == 5;
      assert subj == subj[..|root|] + subj[|root|..];
      assert subj[..|root|] == root;
      assert subj[|root|..] == SIGN_RECORD_SUFFIX[|root| - n..];
      if |root| - n == 5 {
        assert root[|root| - 5..] == subj[n..][..5] == ".sign";
      }
    }
  }

  /** `allows[i]` decides the scan: everything before it is skipped. */
  predicate Decides(allows: seq<string>, root: string, i: nat) {
    && i < |allows|
    && !MatchSubject(allows[i], root).Skip?
    && forall j | 0 <= j < i :: MatchSubject(allows[j], root).Skip?
  }

  /** The scan answers as its first subject that is not skipped, and finds nothing only if there is none. */
  lemma {:induction false} ScanIsFirstMatch(allows: seq<string>, root: string)
    ensures forall i: nat | Decides(allows, root, i) ::
              PrincipalFromAllows(allows, root) == MatchSubject(allows[i], root)
    ensures PrincipalFromAllows(allows, root).Skip?
            <==> forall j | 0 <= j < |allows| :: MatchSubject(allows[j], root).Skip?
    ensures !PrincipalFromAllows(allows, root).Skip? ==> exists i: nat :: Decides(allows, root, i)
  {
    if allows != [] {
      ScanIsFirstMatch(allows[1..], root);
      if MatchSubject(allows[0], root).Skip? {
        forall i: nat | Decides(allows, root, i)
          ensures PrincipalFromAllows(allows, root) == MatchSubject(allows[i], root)
        {
          assert Decides(allows[1..], root, i - 1);
        }
        if !PrincipalFromAllows(allows, root).Skip? {
          var i: nat :| Decides(allows[1..], root, i);
          assert Decides(allows, root, i + 1);
        }
        assert forall j | 0 < j < |allows| :: allows[j] == allows[1..][j - 1];
      } else {
        assert Decides(allows, root, 0);
      }
    }
  }

  /**
   * The parser: it names `who` exactly when who's grant is in the list with neither another
   * principal's grant nor an overlapping subject before it. It panics exactly when an
   * overlapping subject comes before every grant.
   */
  lemma ParserSpec(allows: seq<string>, root: string, who: Principal)
    ensures PrincipalFromAllows(allows, root) == Hit(who) <==>
            exists i: nat :: i < |allows| && WellFormed(who) && allows[i] == Grant(who, root) &&
              forall j | 0 <= j < i :: MatchSubject(allows[j], root).Skip?
    ensures PrincipalFromAllows(allows, root).Panics? <==>
            exists i: nat :: i < |allows| && Overlaps(allows[i], root) &&
              forall j | 0 <= j < i :: MatchSubject(allows[j], root).Skip?
  {
    ScanIsFirstMatch(allows, root);
    forall i: nat | i < |allows| && WellFormed(who) && allows[i] == Grant(who, root) &&
        forall j | 0 <= j < i :: MatchSubject(allows[j], root).Skip?
      ensures PrincipalFromAllows(allows, root) == Hit(who)
    {
      GrantIsMatched(who, root);
      assert Decides(allows, root, i);
    }
    forall i: nat | i < |allows| && Overlaps(allows[i], root) &&
        forall j | 0 <= j < i :: MatchSubject(allows[j], root).Skip?
      ensures PrincipalFromAllows(allows, root).Panics?
    {
      PanicsIffOverlaps(allows[i], root);
      assert Decides(allows, root, i);
    }
    if !PrincipalFromAllows(allows, root).Skip? {
      var i: nat :| Decides(allows, root, i);
      HitIffGrant(allows[i], root, who);
      PanicsIffOverlaps(allows[i], root);
    }
  }

  /** Printing a principal as its grant and parsing the list back gives the principal. */
  lemma GrantRoundTrip(before: seq<string>, who: Principal, after: seq<string>, root: string)
    requires WellFormed(who)
    requires forall subj | subj in before :: MatchSubject(subj, root).Skip?
    ensures PrincipalFromAllows(before + [Grant(who, root)] + after, root) == Hit(who)
  {
    var allows := before + [Grant(who, root)] + after;
    assert allows[|before|] == Grant(who, root);
    assert forall j | 0 <= j < |before| :: allows[j] == before[j] && before[j] in before;
    ParserSpec(allows, root, who);
  }

  /** The order of the list is irrelevant when all its grants name one principal. */
  lemma OrderIndependent(allows: seq<string>, other: seq<string>, root: string)
    requires forall subj :: subj in allows <==> subj in other
    requires forall subj | subj in allows :: !Overlaps(subj, root)
    requires forall s, t | s in allows && t in allows && MatchSubject(s, root).Hit? && MatchSubject(t, root).Hit? ::
               MatchSubject(s, root) == MatchSubject(t, root)
    ensures PrincipalFromAllows(allows, root) == PrincipalFromAllows(other, root)
  {
    ScanIsFirstMatch(allows, root);
    ScanIsFirstMatch(other, root);
    forall subj | subj in allows
      ensures !MatchSubject(subj, root).Panics?
    {
      PanicsIffOverlaps(subj, root);
    }
    if exists i: nat :: Decides(allows, root, i) {
      var i: nat :| Decides(allows, root, i);
      assert allows[i] in other;
      var j :| 0 <= j < |other| && other[j] == allows[i];
      assert !PrincipalFromAllows(other, root).Skip?;
      var k: nat :| Decides(other, root, k);
      assert allows[i] in allows && other[k] in allows;
    }
  }
}
