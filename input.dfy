/** The string handling around a load: reading the repository text box
    (app.js:59-77), splitting the repository into owner and name
    (app.js:102-105), the message for a failed request (app.js:111-119) and
    the unit `formatSize` picks (app.js:420-425). */
module Input {
  import opened Wrappers
  import opened Text

  // ---------------------------------------------------------------------
  // the repository text box (app.js:59-77)

  const EmptyInput := "Please enter a repository"
  const BadFormat := "Invalid repository format. Use \"owner/repo\""

  /** The marker the input is split on. */
  const HostMarker := "github.com/"

  /** `s.split(HostMarker)[1]`: the text between the first occurrence of the
      marker and the next one, or the end; `None` when there is no
      occurrence. */
  function AfterMarker(s: string): (r: Option<string>)
    ensures r.None? <==> !Contains(s, HostMarker)
    ensures r.Some? ==> Contains(s, r.value) && !Contains(r.value, HostMarker)
    ensures r.Some? ==> exists i :: SecondPiece(s, i, r.value)
  {
    match IndexOf(s, HostMarker, 0)
    case None => None
    case Some(i) =>
      var start := i + |HostMarker|;
      var stop := match IndexOf(s, HostMarker, start) case None => |s| case Some(j) => j;
      MarkerFree(s, start, stop);
      SliceContained(s, start, stop);
      assert SecondPiece(s, i, s[start..stop]);
      Some(s[start..stop])
  }

  /** `v` is the second piece of splitting `s` on the marker, with the first
      occurrence of the marker at `i`: `v` starts right after it and runs up
      to the next occurrence, or to the end when there is none. */
  predicate SecondPiece(s: string, i: nat, v: string)
  {
    && OccursAt(s, HostMarker, i)
    && (forall j | 0 <= j < i :: !OccursAt(s, HostMarker, j))
    && i + |HostMarker| + |v| <= |s|
    && s[i + |HostMarker|..i + |HostMarker| + |v|] == v
    && (forall j | i + |HostMarker| <= j < i + |HostMarker| + |v| :: !OccursAt(s, HostMarker, j))
    && (i + |HostMarker| + |v| == |s| || OccursAt(s, HostMarker, i + |HostMarker| + |v|))
  }

  /** A slice of `s` occurs in `s`. */
  lemma SliceContained(s: string, start: nat, stop: nat)
    requires start <= stop <= |s|
    ensures Contains(s, s[start..stop])
  {
    assert s[start..start + (stop - start)] == s[start..stop];
    ContainsIff(s, s[start..stop], start);
  }

  /** The text between `start` and the next occurrence of the marker holds
      no occurrence of it. */
  lemma MarkerFree(s: string, start: nat, stop: nat)
    requires start <= stop <= |s|
    requires IndexOf(s, HostMarker, start).None? ==> stop == |s|
    requires IndexOf(s, HostMarker, start).Some? ==> stop == IndexOf(s, HostMarker, start).value
    ensures !Contains(s[start..stop], HostMarker)
  {
    var t := s[start..stop];
    forall k: nat ensures !OccursAt(t, HostMarker, k) {
      if k + |HostMarker| <= |t| {
        SliceOccurrence(s, start, stop, HostMarker, k);
      }
    }
    IndexOfNone(t, HostMarker, 0);
  }

  /** An occurrence in a slice is an occurrence in the whole. */
  lemma SliceOccurrence(s: string, start: nat, stop: nat, pat: string, k: nat)
    requires start <= stop <= |s|
    ensures OccursAt(s[start..stop], pat, k) ==> OccursAt(s, pat, start + k)
  {
    var t := s[start..stop];
    if OccursAt(t, pat, k) {
      forall m | 0 <= m < |pat| ensures s[start + k + m] == pat[m] {
        assert t[k..k + |pat|][m] == t[k + m] == s[start + k + m];
      }
      assert s[start + k..start + k + |pat|] == pat;
    }
  }

  /** `.replace(/\.git$/, '')`: one trailing `.git` removed. */
  function StripGit(s: string): (r: string)
    ensures EndsWith(s, ".git") ==> r + ".git" == s
    ensures !EndsWith(s, ".git") ==> r == s
  {
    if EndsWith(s, ".git") then s[..|s| - 4] else s
  }

  /** What `loadRepo` makes of the text box: the repository string, or the
      error message it shows. */
  function ParseRepoInput(raw: string): (r: Result<string, string>)
    ensures r == Err(EmptyInput) <==> forall k | 0 <= k < |raw| :: IsSpace(raw[k])
    ensures r.Err? ==> r.error == EmptyInput || r.error == BadFormat
    ensures r.Ok? ==> '/' in r.value && Contains(raw, r.value)
    ensures r == Err(BadFormat) <==> Trim(raw) != "" && '/' !in RepoPart(Trim(raw))
    ensures r.Ok? ==> r.value == RepoPart(Trim(raw))
  {
    var input := Trim(raw);
    if input == "" then Err(EmptyInput)
    else
      var repo := RepoPart(input);
      if '/' !in repo then Err(BadFormat)
      else
        ContainsTrans(raw, input, repo);
        Ok(repo)
  }

  /** The repository part of the trimmed input: what follows the marker,
      without a trailing `.git`, when something follows it, and otherwise
      the whole input. */
  function RepoPart(input: string): (repo: string)
    ensures Contains(input, repo)
  {
    match AfterMarker(input)
    case Some(part) =>
      if part != "" then
        var repo := StripGit(part);
        assert OccursAt(part, repo, 0) by { assert part[..|repo|] == repo; }
        ContainsIff(part, repo, 0);
        ContainsTrans(input, part, repo);
        repo
      else
        assert OccursAt(input, input, 0) by { assert input[..|input|] == input; }
        ContainsIff(input, input, 0);
        input
    case None =>
      assert OccursAt(input, input, 0) by { assert input[..|input|] == input; }
      ContainsIff(input, input, 0);
      input
  }

  /** Containment of strings is transitive. */
  lemma ContainsTrans(a: string, b: string, c: string)
    requires Contains(a, b) && Contains(b, c)
    ensures Contains(a, c)
  {
    var i := IndexOf(a, b, 0).value;
    var j := IndexOf(b, c, 0).value;
    assert a[i..i + |b|] == b;
    assert b[j..j + |c|] == c;
    forall k | 0 <= k < |c| ensures a[i + j + k] == c[k] {
      assert c[k] == b[j..j + |c|][k] == b[j + k];
      assert b[j + k] == a[i..i + |b|][j + k] == a[i + j + k];
    }
    assert a[i + j..i + j + |c|] == c;
    ContainsIff(a, c, i + j);
  }

  /** A plain `owner/repo`, surrounded by white space or not, is taken as it
      is. */
  lemma ParsePlain(raw: string, repo: string)
    requires Trim(raw) == repo && '/' in repo && !Contains(repo, HostMarker)
    ensures ParseRepoInput(raw) == Ok(repo)
  {
  }

  /** A text box that is not blank but holds no `/` anywhere is refused
      as not being `owner/repo`. */
  lemma NoSlashRejected(raw: string)
    requires Trim(raw) != "" && '/' !in raw
    ensures ParseRepoInput(raw) == Err(BadFormat)
  {
    var input := Trim(raw);
    SlashFreeInside(raw, input);
    SlashFreeInside(input, HostMarker);
    assert AfterMarker(input).None?;
  }

  /** Whatever occurs in a text without `/` has no `/`. */
  lemma SlashFreeInside(a: string, b: string)
    requires '/' !in a
    ensures Contains(a, b) ==> '/' !in b
  {
    if Contains(a, b) {
      var i := IndexOf(a, b, 0).value;
      forall k | 0 <= k < |b| ensures b[k] != '/' {
        assert b[k] == a[i..i + |b|][k] == a[i + k];
      }
    }
  }

  /** The text box read on blank inputs. */
  lemma ParseExamples()
    ensures ParseRepoInput("") == Err(EmptyInput)
    ensures ParseRepoInput("   ") == Err(EmptyInput)
  {
    var blank := "   ";
    assert blank[0] == blank[1] == blank[2] == ' ';
    assert forall k | 0 <= k < |blank| :: IsSpace(blank[k]);
  }

  /** Text with no white space at either end is its own trim. */
  lemma TrimKeeps(s: string)
    requires s != [] && !IsSpace(s[0]) && !IsSpace(s[|s| - 1])
    ensures Trim(s) == s
  {
    assert TrimStart(s) == s;
    assert TrimEnd(s) == s;
  }

  /** One space on each side is trimmed away. */
  lemma TrimPadded(s: string)
    requires s != [] && !IsSpace(s[0]) && !IsSpace(s[|s| - 1])
    ensures Trim(" " + s + " ") == s
  {
    var t := " " + s + " ";
    assert t[1..] == s + " ";
    assert TrimStart(s + " ") == s + " ";
    assert TrimStart(t) == s + " ";
    assert (s + " ")[..|s|] == s;
    assert TrimEnd(s) == s;
    assert TrimEnd(s + " ") == s;
  }

  /** A text without a `g` holds no marker. */
  lemma LacksMarker(s: string)
    requires 'g' !in s
    ensures !Contains(s, HostMarker)
  {
    forall k: nat ensures !OccursAt(s, HostMarker, k) {
      MarkerStartsWithG(s, k);
    }
    IndexOfNone(s, HostMarker, 0);
  }

  lemma MarkerStartsWithG(s: string, k: nat)
    ensures OccursAt(s, HostMarker, k) ==> s[k] == 'g'
  {
    if OccursAt(s, HostMarker, k) {
      assert s[k..k + |HostMarker|][0] == HostMarker[0];
    }
  }

  /** A GitHub address of a repository, with or without `.git`, gives the
      repository back. */
  lemma ParseUrl(repo: string)
    requires '/' in repo && !Contains(repo, HostMarker)
    requires !EndsWith(repo, ".git") && !IsSpace(repo[|repo| - 1])
    ensures ParseRepoInput("https://github.com/" + repo) == Ok(repo)
    ensures ParseRepoInput("https://github.com/" + repo + ".git") == Ok(repo)
  {
    assert StripGit(repo) == repo;
    ParseAddress(repo);
    ParseUrlGit(repo);
  }

  lemma ParseUrlGit(repo: string)
    requires '/' in repo && !Contains(repo, HostMarker) && !IsSpace(repo[|repo| - 1])
    ensures ParseRepoInput("https://github.com/" + repo + ".git") == Ok(repo)
  {
    var g := repo + ".git";
    NoMarkerAcrossSlashFree(repo, ".git");
    assert EndsWith(g, ".git") && g[..|g| - 4] == repo;
    assert StripGit(g) == repo;
    assert "https://github.com/" + repo + ".git" == "https://github.com/" + g;
    ParseAddress(g);
  }

  /** The address `https://github.com/<rest>`, when `rest` holds no marker,
      is read as `rest` without its `.git`. */
  lemma ParseAddress(rest: string)
    requires rest != [] && !Contains(rest, HostMarker) && !IsSpace(rest[|rest| - 1])
    requires '/' in StripGit(rest)
    ensures ParseRepoInput("https://github.com/" + rest) == Ok(StripGit(rest))
  {
    var s := "https://github.com/" + rest;
    AddressPart(s, rest);
    ParseVia(s, rest);
  }

  /** The address `https://github.com/<rest>` whose `rest`, without `.git`,
      names no owner is refused as badly formed. */
  lemma AddressWithoutSlash(rest: string)
    requires rest != [] && !Contains(rest, HostMarker) && !IsSpace(rest[|rest| - 1])
    requires '/' !in StripGit(rest)
    ensures ParseRepoInput("https://github.com/" + rest) == Err(BadFormat)
  {
    var s := "https://github.com/" + rest;
    AddressPart(s, rest);
    PartAfterMarker(s, rest);
  }

  /** Non-empty text after the marker is the repository part, without
      its `.git`. */
  lemma PartAfterMarker(s: string, part: string)
    requires AfterMarker(s) == Some(part) && part != ""
    ensures RepoPart(s) == StripGit(part)
  {
  }

  /** The address `https://github.com/<rest>` is already trimmed, and
      `rest` is what follows its marker. */
  lemma AddressPart(s: string, rest: string)
    requires rest != [] && !Contains(rest, HostMarker) && !IsSpace(rest[|rest| - 1])
    requires s == "https://github.com/" + rest
    ensures s != [] && Trim(s) == s
    ensures AfterMarker(s) == Some(rest)
  {
    var p := "https://github.com/";
    assert TrimStart(s) == s;
    assert TrimEnd(s) == s;
    MarkerAfterScheme(rest);
    IndexOfShift(p, rest, HostMarker);
    assert s[19..] == rest;
  }

  /** An address naming only an owner is refused. */
  lemma OwnerOnlyRejected()
    ensures ParseRepoInput("https://github.com/" + "foo") == Err(BadFormat)
  {
    var rest := "foo";
    assert 'g' !in rest && !IsSpace(rest[2]) && '/' !in rest;
    LacksMarker(rest);
    assert StripGit(rest) == rest by { assert !EndsWith(rest, ".git"); }
    AddressWithoutSlash(rest);
  }

  /** An input whose text after the marker is not empty is read as that
      text without its `.git`. */
  lemma ParseVia(raw: string, part: string)
    requires Trim(raw) == raw != "" && AfterMarker(raw) == Some(part) && part != ""
    requires '/' in StripGit(part)
    ensures ParseRepoInput(raw) == Ok(StripGit(part))
  {
  }

  /** The first marker of `https://github.com/...` is the one of the
      host name. */
  lemma MarkerAfterScheme(rest: string)
    ensures IndexOf("https://github.com/" + rest, HostMarker, 0) == Some(8)
  {
    var p := "https://github.com/";
    var s := p + rest;
    assert s[8..19] == p[8..19] == HostMarker;
    forall j | 0 <= j < 8 ensures !OccursAt(s, HostMarker, j) {
      assert s[j + 10] == p[j + 10] != '/';
      SlashEndsMarker(s, j);
    }
    IndexOfFirst(s, HostMarker, 0, 8);
  }

  /** An occurrence of the marker ends in `/`. */
  lemma SlashEndsMarker(s: string, j: nat)
    ensures OccursAt(s, HostMarker, j) ==> s[j + |HostMarker| - 1] == '/'
  {
    if OccursAt(s, HostMarker, j) {
      assert s[j..j + |HostMarker|][|HostMarker| - 1] == HostMarker[10];
    }
  }

  /** `IndexOf` finds the first occurrence at or after `from`. */
  lemma {:induction false} IndexOfFirst(s: string, pat: string, from: nat, i: nat)
    requires from <= i && OccursAt(s, pat, i)
    requires forall j | from <= j < i :: !OccursAt(s, pat, j)
    ensures IndexOf(s, pat, from) == Some(i)
    decreases i - from
  {
    if from < i {
      assert !OccursAt(s, pat, from);
      IndexOfFirst(s, pat, from + 1, i);
    }
  }

  /** Past a prefix, a string without the pattern has no occurrence. */
  lemma IndexOfShift(p: string, rest: string, pat: string)
    requires !Contains(rest, pat)
    ensures IndexOf(p + rest, pat, |p|).None?
  {
    var s := p + rest;
    forall k | |p| <= k ensures !OccursAt(s, pat, k) {
      ShiftOccurrence(p, rest, pat, k);
      if IndexOf(rest, pat, 0).None? {
        assert !OccursAt(rest, pat, k - |p|);
      }
    }
    IndexOfNone(s, pat, |p|);
  }

  /** An occurrence past a prefix is an occurrence in the rest. */
  lemma ShiftOccurrence(p: string, rest: string, pat: string, k: nat)
    requires |p| <= k
    ensures OccursAt(p + rest, pat, k) ==> OccursAt(rest, pat, k - |p|)
  {
    if OccursAt(p + rest, pat, k) {
      assert (p + rest)[k..k + |pat|] == rest[k - |p|..k - |p| + |pat|];
    }
  }

  /** `IndexOf` finds nothing when there is no occurrence at or after
      `from`. */
  lemma {:induction false} IndexOfNone(s: string, pat: string, from: nat)
    requires forall j | from <= j :: !OccursAt(s, pat, j)
    ensures IndexOf(s, pat, from).None?
    decreases |s| - from
  {
    if from + |pat| <= |s| {
      assert !OccursAt(s, pat, from);
      IndexOfNone(s, pat, from + 1);
    }
  }

  /** The marker ends in `/`, so appending a text without `/` cannot create
      an occurrence of it. */
  lemma NoMarkerAcrossSlashFree(a: string, b: string)
    requires !Contains(a, HostMarker) && '/' !in b
    ensures !Contains(a + b, HostMarker)
  {
    var s := a + b;
    forall k | 0 <= k ensures !OccursAt(s, HostMarker, k) {
      SlashEndsMarker(s, k);
      if k + |HostMarker| <= |a| {
        PrefixOccurrence(a, b, HostMarker, k);
      } else if k + |HostMarker| <= |s| {
        assert s[k + |HostMarker| - 1] == b[k + |HostMarker| - 1 - |a|];
      }
    }
    IndexOfNone(s, HostMarker, 0);
  }

  /** An occurrence inside a prefix is an occurrence in the prefix. */
  lemma PrefixOccurrence(a: string, b: string, pat: string, k: nat)
    requires k + |pat| <= |a|
    ensures OccursAt(a + b, pat, k) ==> OccursAt(a, pat, k)
  {
    assert (a + b)[k..k + |pat|] == a[k..k + |pat|];
  }

  /** An address with nothing after the marker is taken as it is: it holds a
      `/`, so it is accepted as the repository. */
  lemma BareHostAccepted()
    ensures ParseRepoInput("https://github.com/") == Ok("https://github.com/")
  {
    var s := "https://github.com/";
    BareHostTrimmed(s);
    BareHostMarker(s);
    assert s[18] == '/';
    NothingAfterMarker(s);
  }

  lemma BareHostTrimmed(s: string)
    requires s == "https://github.com/"
    ensures Trim(s) == s
  {
    assert TrimStart(s) == s;
    assert TrimEnd(s) == s;
  }

  lemma BareHostMarker(s: string)
    requires s == "https://github.com/"
    ensures AfterMarker(s) == Some("")
  {
    MarkerAfterScheme("");
    assert s + "" == s;
    var i := IndexOf(s, HostMarker, 0).value;
    assert i + |HostMarker| == |s|;
    assert IndexOf(s, HostMarker, |s|).None?;
  }

  /** A trimmed input with a `/` and nothing after the marker is accepted
      whole. */
  lemma NothingAfterMarker(raw: string)
    requires Trim(raw) != "" && '/' in Trim(raw) && AfterMarker(Trim(raw)) == Some("")
    ensures ParseRepoInput(raw) == Ok(Trim(raw))
  {
  }

  // ---------------------------------------------------------------------
  // owner and name (app.js:102-105)

  /** `const [owner, name] = repo.split('/')`: the first two segments. */
  function OwnerName(repo: string): (r: (string, string))
    requires '/' in repo
    ensures '/' !in r.0 && '/' !in r.1
    ensures |r.0| + 1 + |r.1| <= |repo| && repo[..|r.0| + 1 + |r.1|] == r.0 + "/" + r.1
    ensures |r.0| + 1 + |r.1| == |repo| || repo[|r.0| + 1 + |r.1|] == '/'
  {
    var parts := Split(repo, '/');
    SplitFirstTwo(repo, '/');
    (parts[0], parts[1])
  }

  /** A string holding the separator starts with its first two pieces and
      the separator between them. */
  lemma SplitFirstTwo(s: string, sep: char)
    requires sep in s
    ensures var parts := Split(s, sep);
      && |parts| >= 2 && |parts[0]| + 1 + |parts[1]| <= |s|
      && s[..|parts[0]| + 1 + |parts[1]|] == parts[0] + [sep] + parts[1]
      && (|parts[0]| + 1 + |parts[1]| == |s| || s[|parts[0]| + 1 + |parts[1]|] == sep)
  {
    var i := FirstIndex(s, sep);
    var rest := s[i + 1..];
    var more := Split(rest, sep);
    assert Split(s, sep) == [s[..i]] + more;
    JoinSplit(rest, sep);
    JoinStartsWithFirst(more, sep);
    PieceAfter(s, i, more[0]);
    FirstPieceEnds(rest, sep);
    if |more[0]| < |rest| {
      assert s[i + 1 + |more[0]|] == rest[|more[0]|];
    }
  }

  /** The first piece of a split runs to the end or stops at a separator. */
  lemma FirstPieceEnds(s: string, sep: char)
    ensures var p := Split(s, sep)[0]; |p| <= |s| && (|p| == |s| || s[|p|] == sep)
  {
    JoinSplit(s, sep);
    JoinStartsWithFirst(Split(s, sep), sep);
    if sep in s {
      var i := FirstIndex(s, sep);
      assert Split(s, sep)[0] == s[..i];
    }
  }

  /** A piece read right after position `i` extends the prefix before `i`. */
  lemma PieceAfter(s: string, i: nat, p: string)
    requires i < |s| && |p| <= |s[i + 1..]| && s[i + 1..][..|p|] == p
    ensures s[..i + 1 + |p|] == s[..i] + [s[i]] + p
  {
    forall k | 0 <= k < |p| ensures s[i + 1 + k] == p[k] {
      assert p[k] == s[i + 1..][..|p|][k];
    }
  }

  /** A repository with exactly one `/` is owner, `/`, name. */
  lemma OwnerNameRoundTrip(owner: string, name: string)
    requires '/' !in owner && '/' !in name
    ensures OwnerName(owner + "/" + name) == (owner, name)
  {
    SplitJoin([owner, name], '/');
    assert Join([owner, name], '/') == owner + "/" + name by {
      assert [owner, name][1..] == [name];
    }
  }

  /** The address of the request for the recursive tree of `main`
      (app.js:105). */
  function TreeUrl(owner: string, name: string): (u: string)
    ensures Contains(u, owner + "/" + name)
  {
    var p := "https://api.github.com/repos/";
    var u := p + owner + "/" + name + "/git/trees/main?recursive=1";
    assert u[|p|..|p| + |owner + "/" + name|] == owner + "/" + name;
    ContainsIff(u, owner + "/" + name, |p|);
    u
  }

  // ---------------------------------------------------------------------
  // a failed request (app.js:111-119)

  const NotFound := "Repository not found"
  const RateLimited := "API rate limit exceeded. Please try again later."
  const ApiErrorPrefix := "GitHub API error: "

  /** The message of the error thrown for a response status, or `None` when
      `response.ok` holds (a status in 200-299). */
  function FetchError(status: nat): (r: Option<string>)
    ensures r.None? <==> 200 <= status <= 299
    ensures status == 404 ==> r == Some(NotFound)
    ensures status == 403 ==> r == Some(RateLimited)
  {
    if 200 <= status <= 299 then None
    else if status == 404 then Some(NotFound)
    else if status == 403 then Some(RateLimited)
    else Some(ApiErrorPrefix + Decimal(status))
  }

  /** Every other failing status gets a message of its own that names the
      status. */
  lemma FetchErrorNamesStatus(status: nat)
    requires !(200 <= status <= 299) && status != 404 && status != 403
    ensures FetchError(status).Some?
    ensures var m := FetchError(status).value;
      |ApiErrorPrefix| < |m| && m[..|ApiErrorPrefix|] == ApiErrorPrefix
      && DecimalValue(m[|ApiErrorPrefix|..]) == status
  {
    var m := FetchError(status).value;
    assert m[|ApiErrorPrefix|..] == Decimal(status);
    DecimalRoundTrip(status);
  }

  /** Distinct failing statuses other than 404 and 403 give distinct
      messages, and the two named statuses have messages of their own. */
  lemma FetchErrorInjective(s1: nat, s2: nat)
    requires FetchError(s1).Some? && FetchError(s2).Some? && s1 != s2
    requires s1 != 404 && s1 != 403 && s2 != 404 && s2 != 403
    ensures FetchError(s1) != FetchError(s2)
    ensures FetchError(404) != FetchError(403)
  {
    var m1, m2 := FetchError(s1).value, FetchError(s2).value;
    if m1 == m2 {
      assert Decimal(s1) == m1[|ApiErrorPrefix|..] == m2[|ApiErrorPrefix|..] == Decimal(s2);
      DecimalInjective(s1, s2);
    }
    assert |NotFound| != |RateLimited|;
  }

  // ---------------------------------------------------------------------
  // formatSize (app.js:420-425)

  datatype Unit = B | KB | MB | GB

  /** The displayed size: a byte count in full, or a quantity of a larger
      unit before its rendering with one decimal. */
  datatype Size = Bytes(text: string) | Scaled(amount: real, unit: Unit)

  /** The number of bytes in a unit. */
  function UnitBytes(u: Unit): nat
  {
    match u
    case B => 1
    case KB => 1024
    case MB => 1024 * 1024
    case GB => 1024 * 1024 * 1024
  }

  /** `formatSize(bytes)`: the largest unit, up to GB, of which there is at
      least one; a count in bytes is written out in full. */
  function FormatSize(bytes: nat): (r: Size)
    ensures r.Bytes? <==> bytes < 1024
    ensures r.Bytes? ==> r.text == Decimal(bytes) + " B"
    ensures r.Scaled? ==> r.amount * UnitBytes(r.unit) as real == bytes as real
    ensures r.Scaled? ==> 1.0 <= r.amount && (r.unit != GB ==> r.amount < 1024.0)
  {
    if bytes < 1024 then Bytes(Decimal(bytes) + " B")
    else if bytes < 1024 * 1024 then Scaled(bytes as real / 1024.0, KB)
    else if bytes < 1024 * 1024 * 1024 then Scaled(bytes as real / (1024 * 1024) as real, MB)
    else Scaled(bytes as real / (1024 * 1024 * 1024) as real, GB)
  }

  /** A larger size never shows in a smaller unit. */
  lemma FormatSizeMonotone(a: nat, b: nat)
    requires a <= b
    ensures UnitOf(FormatSize(a)) <= UnitOf(FormatSize(b))
  {
  }

  /** The rank of the unit of a displayed size. */
  function UnitOf(s: Size): nat
  {
    match s
    case Bytes(_) => 0
    case Scaled(_, u) => if u == KB then 1 else if u == MB then 2 else 3
  }

  /** The sizes of the `formatSize` unit test: 500 B, 0 B, and one KB,
      one and a half KB, one MB and one GB before rounding. */
  lemma FormatSizeExamples()
    ensures FormatSize(500) == Bytes("500 B")
    ensures FormatSize(0) == Bytes("0 B")
    ensures FormatSize(1024) == Scaled(1.0, KB)
    ensures FormatSize(1536) == Scaled(1.5, KB)
    ensures FormatSize(1048576) == Scaled(1.0, MB)
    ensures FormatSize(1073741824) == Scaled(1.0, GB)
  {
    assert Decimal(500) == Decimal(50) + ['0'];
    assert Decimal(50) == Decimal(5) + ['0'];
  }
}
