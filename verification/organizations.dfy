/** Organisation helpers: the URL slug derived from an organisation's name, and
    what each member role may do. */
module Organizations {
  import opened Results
  import opened Text
  import Schemas

  // ---------------------------------------------------------------------------
  // generateSlug
  // ---------------------------------------------------------------------------

  /** The characters `replace(/[^a-z0-9\s-]/g, '')` keeps. */
  predicate KeptChar(c: char) {
    IsLower(c) || IsDigit(c) || IsSpace(c) || c == '-'
  }

  /** Drops every character that is not kept, preserving the order of the rest. */
  function KeepSlugChars(s: string): (r: string)
    ensures |r| <= |s|
    ensures forall i :: 0 <= i < |r| ==> KeptChar(r[i])
    ensures forall c :: c in r <==> c in s && KeptChar(c)
    ensures (forall i :: 0 <= i < |s| ==> KeptChar(s[i])) ==> r == s
  {
    if |s| == 0 then ""
    else
      var rest := KeepSlugChars(s[1..]);
      assert forall c :: c in s <==> c == s[0] || c in s[1..];
      if KeptChar(s[0]) then [s[0]] + rest else rest
  }

  /** Filtering distributes over concatenation: with `KeepSlugCharsOfChar`, the kept characters
      stay in their order, each as often as it occurs. */
  lemma {:induction false} KeepSlugCharsInOrder(a: string, b: string)
    ensures KeepSlugChars(a + b) == KeepSlugChars(a) + KeepSlugChars(b)
    decreases |a|
  {
    if |a| == 0 {
      assert a + b == b;
    } else {
      var rest := a[1..];
      var head := if KeptChar(a[0]) then [a[0]] else "";
      calc {
        KeepSlugChars(a + b);
        { assert (a + b)[0] == a[0] && (a + b)[1..] == rest + b; }
        head + KeepSlugChars(rest + b);
        { KeepSlugCharsInOrder(rest, b); }
        head + (KeepSlugChars(rest) + KeepSlugChars(b));
        { ConcatAssoc(head, KeepSlugChars(rest), KeepSlugChars(b)); }
        (head + KeepSlugChars(rest)) + KeepSlugChars(b);
        KeepSlugChars(a) + KeepSlugChars(b);
      }
    }
  }

  /** A single character is kept exactly when it is a kept character. */
  lemma {:induction false} KeepSlugCharsOfChar(c: char)
    ensures KeepSlugChars([c]) == if KeptChar(c) then [c] else ""
  {
    assert [c][1..] == "";
  }

  /** The white-space characters, as a set (`\s`). */
  const Whitespace: set<char> := {' ', '\t', '\n', '\r', '\U{000B}', '\U{000C}'}

  lemma {:induction false} WhitespaceMeaning(c: char)
    ensures c in Whitespace <==> IsSpace(c)
  {
  }

  /** The number of characters from `run` that open `s`. */
  function RunLength(s: string, run: set<char>): (k: nat)
    ensures k <= |s|
    ensures forall i :: 0 <= i < k ==> s[i] in run
    ensures k == |s| || s[k] !in run
  {
    if |s| > 0 && s[0] in run then 1 + RunLength(s[1..], run) else 0
  }

  /** No two hyphens side by side. */
  predicate NoDoubleHyphen(s: string) {
    forall i :: 0 <= i < |s| - 1 ==> !(s[i] == '-' && s[i + 1] == '-')
  }

  /** `replace(/[run]+/g, '-')`: every maximal run of characters from `run` becomes one hyphen. */
  function Squeeze(s: string, run: set<char>): (r: string)
    ensures |r| <= |s|
    ensures |r| == 0 <==> |s| == 0
    ensures forall i :: 0 <= i < |r| ==> r[i] == '-' || (r[i] in s && r[i] !in run)
    ensures |s| > 0 ==> r[0] == if s[0] in run then '-' else s[0]
    ensures '-' in run ==> NoDoubleHyphen(r)
    decreases |s|
  {
    if |s| == 0 then ""
    else if s[0] in run then
      var tail := s[1..];
      var rest := tail[RunLength(tail, run)..];
      var squeezed := Squeeze(rest, run);
      assert forall c :: c in rest ==> c in s by {
        forall c | c in rest ensures c in s {
          var j :| 0 <= j < |rest| && rest[j] == c;
          assert s[1 + RunLength(tail, run) + j] == c;
        }
      }
      "-" + squeezed
    else
      var squeezed := Squeeze(s[1..], run);
      assert forall c :: c in s[1..] ==> c in s;
      [s[0]] + squeezed
  }

  /** The opening run of `w + b`, where `w` consists of run characters and `b` does not start
      with one, is `w`. */
  lemma {:induction false} RunLengthOfBlock(w: string, b: string, run: set<char>)
    requires forall i :: 0 <= i < |w| ==> w[i] in run
    requires |b| == 0 || b[0] !in run
    ensures RunLength(w + b, run) == |w|
  {
    var s := w + b;
    var k := RunLength(s, run);
    assert |b| > 0 ==> s[|w|] == b[0];
    assert forall i :: 0 <= i < |w| ==> s[i] == w[i];
  }

  /** Appending to a string whose opening run ends inside it leaves that run as it is. */
  lemma {:induction false} RunLengthOfPrefix(a: string, b: string, run: set<char>)
    requires RunLength(a, run) < |a|
    ensures RunLength(a + b, run) == RunLength(a, run)
  {
    var k, s := RunLength(a, run), a + b;
    var k' := RunLength(s, run);
    assert s[k] == a[k];
  }

  /** A maximal run, followed by anything that does not continue it, becomes exactly one
      hyphen. */
  lemma {:induction false} SqueezeRun(w: string, b: string, run: set<char>)
    requires |w| > 0 && forall i :: 0 <= i < |w| ==> w[i] in run
    requires |b| == 0 || b[0] !in run
    ensures Squeeze(w + b, run) == "-" + Squeeze(b, run)
  {
    var s := w + b;
    var tail := s[1..];
    assert tail == w[1..] + b;
    RunLengthOfBlock(w[1..], b, run);
    assert tail[|w| - 1..] == b;
  }

  /** Squeezing distributes over a split right after a character outside `run`: runs never
      cross such a character, and the characters outside `run` stay in their order. */
  lemma {:induction false} SqueezeSplits(a: string, b: string, run: set<char>)
    requires |a| == 0 || a[|a| - 1] !in run
    ensures Squeeze(a + b, run) == Squeeze(a, run) + Squeeze(b, run)
    decreases |a|
  {
    if |a| == 0 {
      assert a + b == b;
    } else if a[0] !in run {
      var rest := a[1..];
      assert (a + b)[1..] == rest + b;
      SqueezeSplits(rest, b, run);
      ConcatAssoc([a[0]], Squeeze(rest, run), Squeeze(b, run));
    } else {
      var tail := a[1..];
      var k := RunLength(tail, run);
      assert tail[|tail| - 1] == a[|a| - 1];
      RunLengthOfPrefix(tail, b, run);
      assert (a + b)[1..] == tail + b;
      assert (tail + b)[k..] == tail[k..] + b;
      var rest := tail[k..];
      assert rest[|rest| - 1] == a[|a| - 1];
      SqueezeSplits(rest, b, run);
      ConcatAssoc("-", Squeeze(rest, run), Squeeze(b, run));
    }
  }

  /** Squeezing leaves a string alone when none of its characters is in `run`. */
  lemma {:induction false} SqueezeWithoutRuns(s: string, run: set<char>)
    requires forall i :: 0 <= i < |s| ==> s[i] !in run
    ensures Squeeze(s, run) == s
    decreases |s|
  {
    if |s| > 0 {
      SqueezeWithoutRuns(s[1..], run);
    }
  }

  /** Squeezing hyphens leaves a string alone when no two of them are adjacent. */
  lemma {:induction false} SqueezeSingleHyphens(s: string)
    requires NoDoubleHyphen(s)
    ensures Squeeze(s, {'-'}) == s
    decreases |s|
  {
    if |s| > 0 {
      var tail := s[1..];
      assert NoDoubleHyphen(tail);
      if s[0] == '-' {
        assert RunLength(tail, {'-'}) == 0 by {
          if |tail| > 0 { assert s[1] != '-'; }
        }
        assert tail[0..] == tail;
      }
      SqueezeSingleHyphens(tail);
    }
  }

  /** `generateSlug`: lower-case, trim, drop everything but `[a-z0-9\s-]`, turn white-space runs
      into a hyphen, collapse hyphen runs, keep the first 50 characters. */
  function GenerateSlug(name: string): (slug: string)
    ensures |slug| <= 50
    ensures forall i :: 0 <= i < |slug| ==> Schemas.SlugChar(slug[i])
    ensures NoDoubleHyphen(slug)
    ensures forall i :: 0 <= i < |slug| && slug[i] != '-' ==> slug[i] in ToLower(name)
    ensures |slug| == 0 <==> forall c :: c in Trim(ToLower(name)) ==> !KeptChar(c)
    ensures (exists i :: 0 <= i < |name| && Schemas.SlugChar(LowerChar(name[i]))) ==> |slug| > 0
  {
    var lowered := ToLower(name);
    var kept := KeepSlugChars(Trim(lowered));
    var dashed := Squeeze(kept, Whitespace);
    var collapsed := Squeeze(dashed, {'-'});
    DashedSlugChars(kept);
    SqueezedSlugChars(dashed, {'-'});
    SlugSourceChars(lowered, kept, dashed, collapsed);
    FirstChars(collapsed, 50)
  }

  /** The letters and digits that survive the steps of `generateSlug` come from the lower-cased
      name; something survives exactly when the trimmed name holds a kept character, and in
      particular whenever the name holds a letter or a digit. */
  lemma {:induction false} SlugSourceChars(lowered: string, kept: string, dashed: string, collapsed: string)
    requires kept == KeepSlugChars(Trim(lowered))
    requires dashed == Squeeze(kept, Whitespace) && collapsed == Squeeze(dashed, {'-'})
    ensures forall i :: 0 <= i < |collapsed| && collapsed[i] != '-' ==> collapsed[i] in lowered
    ensures |collapsed| == 0 <==> forall c :: c in Trim(lowered) ==> !KeptChar(c)
    ensures (exists i :: 0 <= i < |lowered| && Schemas.SlugChar(lowered[i])) ==> |collapsed| > 0
  {
    var trimmed := Trim(lowered);
    forall i | 0 <= i < |collapsed| && collapsed[i] != '-' ensures collapsed[i] in lowered {
      var c := collapsed[i];
      assert c in dashed;
      assert c in kept;
      assert c in trimmed;
    }
    if i :| 0 <= i < |lowered| && Schemas.SlugChar(lowered[i]) {
      var k := LeadingSpaces(lowered);
      assert !IsSpace(lowered[i]);
      assert trimmed[i - k] == lowered[i];
      assert lowered[i] in kept;
    }
  }

  /** Turning white-space runs of kept characters into hyphens leaves slug characters only. */
  lemma {:induction false} DashedSlugChars(kept: string)
    requires forall i :: 0 <= i < |kept| ==> KeptChar(kept[i])
    ensures forall i :: 0 <= i < |Squeeze(kept, Whitespace)| ==> Schemas.SlugChar(Squeeze(kept, Whitespace)[i])
  {
    var dashed := Squeeze(kept, Whitespace);
    forall i | 0 <= i < |dashed| ensures Schemas.SlugChar(dashed[i]) {
      WhitespaceMeaning(dashed[i]);
      if dashed[i] != '-' {
        var j :| 0 <= j < |kept| && kept[j] == dashed[i];
      }
    }
  }

  /** Squeezing a string of slug characters leaves slug characters only. */
  lemma {:induction false} SqueezedSlugChars(s: string, run: set<char>)
    requires forall i :: 0 <= i < |s| ==> Schemas.SlugChar(s[i])
    ensures forall i :: 0 <= i < |Squeeze(s, run)| ==> Schemas.SlugChar(Squeeze(s, run)[i])
  {
    var squeezed := Squeeze(s, run);
    forall i | 0 <= i < |squeezed| ensures Schemas.SlugChar(squeezed[i]) {
      if squeezed[i] != '-' {
        var j :| 0 <= j < |s| && s[j] == squeezed[i];
      }
    }
  }

  /** Every step of `generateSlug` leaves a slug alone that is already short, made of slug
      characters, and free of double hyphens. */
  lemma {:induction false} GenerateSlugFixesSlugs(s: string)
    requires |s| <= 50 && NoDoubleHyphen(s)
    requires forall i :: 0 <= i < |s| ==> Schemas.SlugChar(s[i])
    ensures GenerateSlug(s) == s
  {
    forall i | 0 <= i < |s| ensures !IsUpper(s[i]) && !IsSpace(s[i]) && KeptChar(s[i]) && s[i] !in Whitespace {
      WhitespaceMeaning(s[i]);
    }
    ToLowerFixesLowerCase(s);
    var lowered := ToLower(s);
    assert lowered == s;
    TrimWithoutSpaces(s);
    var trimmed := Trim(lowered);
    assert trimmed == s;
    var kept := KeepSlugChars(trimmed);
    assert kept == s;
    SqueezeWithoutRuns(s, Whitespace);
    SqueezeSingleHyphens(s);
    assert FirstChars(s, 50) == s;
  }

  /** Running `generateSlug` on its own output changes nothing. */
  lemma {:induction false} GenerateSlugIsIdempotent(name: string)
    ensures GenerateSlug(GenerateSlug(name)) == GenerateSlug(name)
  {
    GenerateSlugFixesSlugs(GenerateSlug(name));
  }

  /** A generated slug of three characters or more is a valid `slugSchema` value, unchanged. */
  lemma {:induction false} GeneratedSlugPassesSchema(name: string)
    requires |GenerateSlug(name)| >= 3
    ensures Schemas.ParseSlug(GenerateSlug(name)) == Ok(GenerateSlug(name))
  {
  }

  // ---------------------------------------------------------------------------
  // Roles
  // ---------------------------------------------------------------------------

  datatype Role = Owner | Admin | Member

  /** `canManageMembers`. */
  predicate CanManageMembers(role: Role) {
    role == Owner || role == Admin
  }

  /** `canManageBilling`. */
  predicate CanManageBilling(role: Role) {
    role == Owner
  }

  /** `canDeleteOrganization`. */
  predicate CanDeleteOrganization(role: Role) {
    role == Owner
  }

  /** The roles in order of authority. */
  function Rank(role: Role): (n: nat)
    ensures n <= 2
    ensures n == 0 <==> role == Member
  {
    match role
    case Owner => 2
    case Admin => 1
    case Member => 0
  }

  /** The permissions are nested: billing and deletion are the owner's alone, member management
      adds the admin, and a plain member holds none. Every permission of a role is held by any
      role of at least its rank. */
  lemma {:induction false} PermissionsFollowRank(a: Role, b: Role)
    ensures CanManageBilling(a) <==> Rank(a) == 2
    ensures CanDeleteOrganization(a) <==> CanManageBilling(a)
    ensures CanManageMembers(a) <==> Rank(a) >= 1
    ensures CanManageBilling(a) ==> CanManageMembers(a)
    ensures Rank(a) <= Rank(b) ==>
      (CanManageMembers(a) ==> CanManageMembers(b)) && (CanManageBilling(a) ==> CanManageBilling(b))
    ensures Rank(a) == Rank(b) ==> a == b
  {
  }
}
