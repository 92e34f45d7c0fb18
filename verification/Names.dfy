/** Stage slugs, workflow file names, and the Kubernetes names made from project ids. */
module Names {
  import opened Text

  predicate IsAlnum(c: char) {
    'a' <= c <= 'z' || '0' <= c <= '9'
  }

  predicate IsDash(c: char) {
    c == '-'
  }

  // ---------------------------------------------------------------- stage slugs

  /** The builder after the loop over `raw`: runs of other runes become one dash. */
  function Dashed(raw: string): string {
    if raw == "" then ""
    else
      var b, c := Dashed(raw[..|raw| - 1]), raw[|raw| - 1];
      if IsAlnum(c) then b + [c] else if b != "" && b[|b| - 1] == '-' then b else b + "-"
  }

  function Undashed(b: string): string {
    TrimWith(b, IsDash)
  }

  function Slug(value: string): string {
    Undashed(Dashed(Trim(Lower(value))))
  }

  method SlugifyStageName(value: string) returns (slug: string)
    ensures slug == Slug(value)
  {
    var raw := Trim(Lower(value));
    if raw == "" {
      return "";
    }
    var b := BuildSlug(raw);
    slug := Undashed(b);
  }

  /** The loop over the runes. */
  method BuildSlug(raw: string) returns (b: string)
    ensures b == Dashed(raw)
  {
    var lastDash := false;
    b := "";
    for i := 0 to |raw|
      invariant b == Dashed(raw[..i])
      invariant lastDash <==> b != "" && b[|b| - 1] == '-'
    {
      assert raw[..i + 1][..i] == raw[..i];
      var r := raw[i];
      if 'a' <= r <= 'z' {
        b := b + [r];
        lastDash := false;
      } else if '0' <= r <= '9' {
        b := b + [r];
        lastDash := false;
      } else if !lastDash {
        b := b + "-";
        lastDash := true;
      }
    }
    assert raw[..|raw|] == raw;
  }

  predicate DashText(s: string) {
    forall i :: 0 <= i < |s| ==> IsAlnum(s[i]) || IsDash(s[i])
  }

  /** Lower-case letters, digits and dashes; no dash at either end. */
  predicate IsPlain(s: string) {
    DashText(s) && (s == "" || (!IsDash(s[0]) && !IsDash(s[|s| - 1])))
  }

  predicate SingleDashes(s: string) {
    forall i :: 0 <= i < |s| - 1 ==> !(s[i] == '-' && s[i + 1] == '-')
  }

  predicate IsSlug(s: string) {
    IsPlain(s) && SingleDashes(s)
  }

  lemma {:induction false} DashedShape(raw: string)
    ensures DashText(Dashed(raw)) && SingleDashes(Dashed(raw))
  {
    if raw != "" {
      DashedShape(raw[..|raw| - 1]);
    }
  }

  lemma {:induction false} DashedFixes(s: string)
    requires DashText(s) && SingleDashes(s)
    ensures Dashed(s) == s
  {
    if s != "" {
      DashedFixes(s[..|s| - 1]);
    }
  }

  lemma PlainIsLower(s: string)
    requires DashText(s)
    ensures Trim(s) == s && Lower(s) == s
  {
    forall i | 0 <= i < |s|
      ensures IsPlainChar(s[i])
    {
      assert IsAlnum(s[i]) || IsDash(s[i]);
    }
    PlainTextIsFixed(s);
  }

  /** Every result is a slug, and the slugs are exactly the names that are left as they are. */
  lemma SlugsAreTheFixedPoints(value: string)
    ensures IsSlug(Slug(value))
    ensures Slug(Slug(value)) == Slug(value)
    ensures Slug(value) == value <==> IsSlug(value)
  {
    SlugShape(value);
    SlugFixed(Slug(value));
    if IsSlug(value) {
      SlugFixed(value);
    }
  }

  lemma SlugShape(value: string)
    ensures IsSlug(Slug(value))
  {
    DashedShape(Trim(Lower(value)));
    UndashedIsSlug(Dashed(Trim(Lower(value))));
  }

  lemma UndashedIsSlug(b: string)
    requires DashText(b) && SingleDashes(b)
    ensures IsSlug(Undashed(b))
  {
    var from := TrimmedPiece(b, IsDash);
    PiecesKeepTheirShape(b, from, from + |Undashed(b)|);
  }

  lemma PiecesKeepTheirShape(b: string, from: nat, to: nat)
    requires DashText(b) && SingleDashes(b) && from <= to <= |b|
    ensures DashText(b[from..to]) && SingleDashes(b[from..to])
  {
  }

  lemma SlugFixed(s: string)
    requires IsSlug(s)
    ensures Slug(s) == s
  {
    PlainIsLower(s);
    DashedFixes(s);
    TrimFixes(s, IsDash);
  }

  /** A name has an empty slug, and is refused, exactly if its lower case holds no letter and no digit. */
  lemma {:induction false} EmptySlug(value: string)
    ensures Slug(value) == "" <==> forall i :: 0 <= i < |Lower(value)| ==> !IsAlnum(Lower(value)[i])
  {
    var lower := Lower(value);
    var raw := Trim(lower);
    var from := TrimmedPiece(lower, IsSpace);
    DashedKeepsAlnum(raw);
    TrimKeepsAlnum(lower, IsSpace);
    TrimKeepsAlnum(Dashed(raw), IsDash);
    SlugShape(value);
  }

  predicate HasAlnum(s: string) {
    exists i :: 0 <= i < |s| && IsAlnum(s[i])
  }

  lemma {:induction false} DashedKeepsAlnum(raw: string)
    ensures HasAlnum(Dashed(raw)) <==> HasAlnum(raw)
  {
    if raw != "" {
      var front := raw[..|raw| - 1];
      DashedKeepsAlnum(front);
      if HasAlnum(front) {
        var i :| 0 <= i < |front| && IsAlnum(front[i]);
        assert IsAlnum(raw[i]);
        var j :| 0 <= j < |Dashed(front)| && IsAlnum(Dashed(front)[j]);
        assert IsAlnum(Dashed(raw)[j]);
      } else if IsAlnum(raw[|raw| - 1]) {
        assert IsAlnum(Dashed(raw)[|Dashed(raw)| - 1]);
      } else {
        assert forall i :: 0 <= i < |raw| ==> raw[i] == if i < |front| then front[i] else raw[|raw| - 1];
      }
    }
  }

  lemma {:induction false} TrimLeftKeepsAlnum(s: string, cut: char -> bool)
    requires forall c :: cut(c) ==> !IsAlnum(c)
    ensures HasAlnum(TrimLeft(s, cut)) <==> HasAlnum(s)
  {
    if s != "" && cut(s[0]) {
      TrimLeftKeepsAlnum(s[1..], cut);
      if HasAlnum(s) {
        var i :| 0 <= i < |s| && IsAlnum(s[i]);
        assert IsAlnum(s[1..][i - 1]);
      }
    }
  }

  lemma {:induction false} TrimRightKeepsAlnum(s: string, cut: char -> bool)
    requires forall c :: cut(c) ==> !IsAlnum(c)
    ensures HasAlnum(TrimRight(s, cut)) <==> HasAlnum(s)
  {
    if s != "" && cut(s[|s| - 1]) {
      TrimRightKeepsAlnum(s[..|s| - 1], cut);
      if HasAlnum(s) {
        var i :| 0 <= i < |s| && IsAlnum(s[i]);
        assert IsAlnum(s[..|s| - 1][i]);
      }
    }
  }

  lemma TrimKeepsAlnum(s: string, cut: char -> bool)
    requires forall c :: cut(c) ==> !IsAlnum(c)
    ensures HasAlnum(TrimWith(s, cut)) <==> HasAlnum(s)
  {
    TrimLeftKeepsAlnum(s, cut);
    TrimRightKeepsAlnum(TrimLeft(s, cut), cut);
  }

  // ---------------------------------------------------------------- names in GitHub and Kubernetes

  function UnderscoreToDash(c: char): char {
    if c == '_' then '-' else c
  }

  function OtherToDash(c: char): char {
    if IsAlnum(c) || IsDash(c) then c else '-'
  }

  /** The part shared by sanitizeName and the two Kubernetes names. */
  function Sanitized(lower: string): string {
    TrimWith(Map(Map(lower, UnderscoreToDash), OtherToDash), IsDash)
  }

  function SanitizeName(value: string): string {
    Sanitized(Lower(Trim(value)))
  }

  lemma SanitizedShape(s: string)
    ensures IsPlain(Sanitized(s))
  {
    var t := Map(s, UnderscoreToDash);
    MappedIsDashText(t);
    TrimmedIsPlain(Map(t, OtherToDash));
  }

  lemma MappedIsDashText(s: string)
    ensures DashText(Map(s, OtherToDash))
  {
  }

  lemma TrimmedIsPlain(m: string)
    requires DashText(m)
    ensures IsPlain(TrimWith(m, IsDash))
  {
    var from := TrimmedPiece(m, IsDash);
    var r := TrimWith(m, IsDash);
    assert r != "" ==> !IsDash(r[0]) && !IsDash(r[|r| - 1]);
  }

  lemma PlainIsMapped(s: string)
    requires DashText(s)
    ensures Map(s, UnderscoreToDash) == s && Map(s, OtherToDash) == s
  {
    forall i | 0 <= i < |s|
      ensures UnderscoreToDash(s[i]) == s[i] && OtherToDash(s[i]) == s[i]
    {
      assert IsAlnum(s[i]) || IsDash(s[i]);
    }
    FixedByMap(s, UnderscoreToDash);
    FixedByMap(s, OtherToDash);
  }

  lemma SanitizedFixes(s: string)
    requires IsPlain(s)
    ensures Sanitized(s) == s
  {
    PlainIsMapped(s);
    TrimFixes(s, IsDash);
  }

  /** sanitizeName leaves exactly the plain names alone, and every slug is one of them. */
  lemma SanitizeFixesSlugs(value: string)
    ensures SanitizeName(value) == value <==> IsPlain(value)
    ensures SanitizeName(Slug(value)) == Slug(value)
  {
    SanitizedShape(Lower(Trim(value)));
    SlugShape(value);
    PlainIsLower(Slug(value));
    SanitizedFixes(Slug(value));
    if IsPlain(value) {
      PlainIsLower(value);
      SanitizedFixes(value);
    }
  }

  // ---------------------------------------------------------------- workflow paths

  const WORKFLOW_DIR := ".github/workflows/"
  const PRODUCTION_FILE := "deploy-service.yml"
  const STAGE_PREFIX := "deploy-service-"
  const SUFFIX := ".yml"

  /** The path that the service looks up. */
  function StageWorkflowPath(slug: string): string {
    if slug == "" || slug == "production" then WORKFLOW_DIR + PRODUCTION_FILE
    else WORKFLOW_DIR + (STAGE_PREFIX + slug + SUFFIX)
  }

  /** The path that the automation writes to the repository. */
  function WrittenWorkflowPath(slug: string): string {
    if slug == "" || slug == "production" then WORKFLOW_DIR + PRODUCTION_FILE
    else WORKFLOW_DIR + (STAGE_PREFIX + SanitizeName(slug) + SUFFIX)
  }

  function AfterLastSlash(path: string): (base: string)
    ensures '/' !in base
    ensures |base| <= |path| && base == path[|path| - |base|..]
  {
    if path == "" || path[|path| - 1] == '/' then ""
    else AfterLastSlash(path[..|path| - 1]) + [path[|path| - 1]]
  }

  function StageSlugFromWorkflowPath(path: string): string {
    SlugOfFile(AfterLastSlash(path))
  }

  function SlugOfFile(base: string): string {
    if base == PRODUCTION_FILE || base == "deploy-deploy-service.yml" then "production"
    else if STAGE_PREFIX <= base && |base| >= |SUFFIX| && base[|base| - |SUFFIX|..] == SUFFIX then
      var rest := base[|STAGE_PREFIX|..];
      if |rest| >= |SUFFIX| && rest[|rest| - |SUFFIX|..] == SUFFIX then rest[..|rest| - |SUFFIX|] else rest
    else ""
  }

  lemma {:induction false} BaseOf(dir: string, base: string)
    requires '/' !in base && dir != "" && dir[|dir| - 1] == '/'
    ensures AfterLastSlash(dir + base) == base
  {
    if base == "" {
      assert dir + base == dir;
    } else {
      assert (dir + base)[..|dir + base| - 1] == dir + base[..|base| - 1];
      BaseOf(dir, base[..|base| - 1]);
    }
  }

  lemma Wrapped(front: string, middle: string, back: string)
    ensures var s := front + middle + back;
      && front <= s && |s| >= |back| && s[|s| - |back|..] == back && s[|front|..] == middle + back
      && (middle + back)[|middle|..] == back && (middle + back)[..|middle|] == middle
  {
  }

  lemma StageFileIsNotProduction(slug: string)
    ensures STAGE_PREFIX + slug + SUFFIX != PRODUCTION_FILE && STAGE_PREFIX + slug + SUFFIX != "deploy-deploy-service.yml"
  {
    var base := STAGE_PREFIX + slug + SUFFIX;
    assert base[14] == '-' && base[7] == 's';
  }

  lemma StageFileParses(slug: string)
    requires '/' !in slug
    ensures StageSlugFromWorkflowPath(WORKFLOW_DIR + (STAGE_PREFIX + slug + SUFFIX)) == slug
  {
    BaseOf(WORKFLOW_DIR, STAGE_PREFIX + slug + SUFFIX);
    StageFileIsNotProduction(slug);
    Wrapped(STAGE_PREFIX, slug, SUFFIX);
  }

  lemma ParsedHoldsNoSlash(path: string)
    ensures '/' !in StageSlugFromWorkflowPath(path)
  {
    var parsed, base := StageSlugFromWorkflowPath(path), AfterLastSlash(path);
    if base == PRODUCTION_FILE || base == "deploy-deploy-service.yml" {
      assert parsed == "production";
    } else if parsed != "" {
      assert forall i :: 0 <= i < |parsed| ==> parsed[i] == base[|STAGE_PREFIX| + i];
    }
  }

  /** Print then parse gives the slug back exactly if it holds no slash; an empty slug means production. */
  lemma PrintThenParse(slug: string)
    ensures slug != "" ==> (StageSlugFromWorkflowPath(StageWorkflowPath(slug)) == slug <==> '/' !in slug)
    ensures StageSlugFromWorkflowPath(StageWorkflowPath("")) == "production"
  {
    BaseOf(WORKFLOW_DIR, PRODUCTION_FILE);
    ParsedHoldsNoSlash(StageWorkflowPath(slug));
    if slug != "production" && '/' !in slug {
      StageFileParses(slug);
    }
  }

  /** For every stage that can exist, the file written, the file looked up and the slug read back agree. */
  lemma WorkflowPathRoundTrip(value: string)
    requires Slug(value) != ""
    ensures WrittenWorkflowPath(Slug(value)) == StageWorkflowPath(Slug(value))
    ensures StageSlugFromWorkflowPath(StageWorkflowPath(Slug(value))) == Slug(value)
  {
    var slug := Slug(value);
    assert IsSlug(slug) && SanitizeName(slug) == slug by {
      SlugShape(value);
      SanitizeFixesSlugs(value);
    }
    WrittenIsLookedUp(slug);
    SlugHoldsNoSlash(slug);
    PrintThenParse(slug);
  }

  lemma WrittenIsLookedUp(slug: string)
    requires SanitizeName(slug) == slug
    ensures WrittenWorkflowPath(slug) == StageWorkflowPath(slug)
  {
  }

  lemma SlugHoldsNoSlash(slug: string)
    requires DashText(slug)
    ensures '/' !in slug
  {
    forall i | 0 <= i < |slug|
      ensures slug[i] != '/'
    {
      assert IsAlnum(slug[i]) || IsDash(slug[i]);
    }
  }

  /** So two stages share a workflow file only if they share a slug. */
  lemma WorkflowPathsAreInjective(value: string, value': string)
    requires Slug(value) != "" && Slug(value') != ""
    requires StageWorkflowPath(Slug(value)) == StageWorkflowPath(Slug(value'))
    ensures Slug(value) == Slug(value')
  {
    WorkflowPathRoundTrip(value);
    WorkflowPathRoundTrip(value');
  }

  // ---------------------------------------------------------------- Kubernetes names

  const LABEL_LIMIT := 63

  /** At most 63 characters, and no dash at the cut. */
  function Shortened(name: string): string {
    if |name| > LABEL_LIMIT then TrimWith(name[..LABEL_LIMIT], IsDash) else name
  }

  function OrProject(sanitized: string): string {
    if sanitized == "" then "project" else sanitized
  }

  function ClusterName(prefix: string, projectID: string): string {
    Shortened(prefix + OrProject(Sanitized(Lower(projectID))))
  }

  const PROJECT_PREFIX := "project-"
  const VCLUSTER_PREFIX := "vcluster-"

  function NamespaceFromProjectID(projectID: string): string {
    ClusterName(PROJECT_PREFIX, projectID)
  }

  function VclusterNameFromProjectID(projectID: string): string {
    ClusterName(VCLUSTER_PREFIX, projectID)
  }

  /** A label as in section 2.3.1 of RFC 1035, with the 63 octets of section 2.3.4. */
  predicate IsLabel(s: string) {
    1 <= |s| <= LABEL_LIMIT && 'a' <= s[0] <= 'z' && IsAlnum(s[|s| - 1]) && DashText(s)
  }

  lemma ShortenedIsLabel(prefix: string, body: string)
    requires DashText(prefix) && prefix != "" && 'a' <= prefix[0] <= 'z'
    requires IsPlain(body) && body != ""
    ensures IsLabel(Shortened(prefix + body))
  {
    var name := prefix + body;
    assert DashText(name);
    if |name| > LABEL_LIMIT {
      var cut := name[..LABEL_LIMIT];
      assert TrimLeft(cut, IsDash) == cut;
      TrimRightKeepsFirst(cut);
    }
  }

  lemma OrProjectIsPlain(s: string)
    requires IsPlain(s)
    ensures IsPlain(OrProject(s)) && OrProject(s) != ""
  {
  }

  lemma ClusterNameIsLabel(prefix: string, projectID: string)
    requires DashText(prefix) && prefix != "" && 'a' <= prefix[0] <= 'z'
    ensures IsLabel(ClusterName(prefix, projectID))
  {
    var sanitized := Sanitized(Lower(projectID));
    SanitizedShape(Lower(projectID));
    OrProjectIsPlain(sanitized);
    ShortenedIsLabel(prefix, OrProject(sanitized));
  }

  lemma {:induction false} TrimRightKeepsFirst(s: string)
    requires s != "" && !IsDash(s[0])
    ensures TrimRight(s, IsDash) != ""
  {
    if |s| > 1 && IsDash(s[|s| - 1]) {
      TrimRightKeepsFirst(s[..|s| - 1]);
    }
  }

  lemma PrefixesAreDashText()
    ensures DashText(PROJECT_PREFIX) && DashText(VCLUSTER_PREFIX)
    ensures 'a' <= PROJECT_PREFIX[0] <= 'z' && 'a' <= VCLUSTER_PREFIX[0] <= 'z'
    ensures |PROJECT_PREFIX| == 8 && |VCLUSTER_PREFIX| == 9
  {
  }

  /** Whatever the id is, both names are labels. */
  lemma NamesAreLabels(projectID: string)
    ensures IsLabel(NamespaceFromProjectID(projectID)) && IsLabel(VclusterNameFromProjectID(projectID))
  {
    PrefixesAreDashText();
    ClusterNameIsLabel(PROJECT_PREFIX, projectID);
    ClusterNameIsLabel(VCLUSTER_PREFIX, projectID);
  }

  predicate IsCanonicalID(id: string) {
    id != "" && IsPlain(id)
  }

  lemma NameOfCanonicalID(prefix: string, id: string)
    requires IsCanonicalID(id)
    ensures ClusterName(prefix, id) == Shortened(prefix + id)
  {
    PlainIsLower(id);
    SanitizedFixes(id);
  }

  lemma CanonicalName(prefix: string, id: string)
    requires IsCanonicalID(id) && |prefix| + |id| <= LABEL_LIMIT
    ensures ClusterName(prefix, id) == prefix + id
  {
    NameOfCanonicalID(prefix, id);
  }

  /** Different canonical ids that fit get different names. */
  lemma NamesAreInjective(a: string, b: string)
    requires IsCanonicalID(a) && IsCanonicalID(b)
    ensures |a| <= 55 && |b| <= 55 && NamespaceFromProjectID(a) == NamespaceFromProjectID(b) ==> a == b
    ensures |a| <= 54 && |b| <= 54 && VclusterNameFromProjectID(a) == VclusterNameFromProjectID(b) ==> a == b
  {
    if |a| <= 55 && |b| <= 55 && NamespaceFromProjectID(a) == NamespaceFromProjectID(b) {
      CanonicalName(PROJECT_PREFIX, a);
      CanonicalName(PROJECT_PREFIX, b);
      assert a == (PROJECT_PREFIX + a)[8..] == (PROJECT_PREFIX + b)[8..] == b;
    }
    if |a| <= 54 && |b| <= 54 && VclusterNameFromProjectID(a) == VclusterNameFromProjectID(b) {
      CanonicalName(VCLUSTER_PREFIX, a);
      CanonicalName(VCLUSTER_PREFIX, b);
      assert a == (VCLUSTER_PREFIX + a)[9..] == (VCLUSTER_PREFIX + b)[9..] == b;
    }
  }

  lemma CutAtTheLimit(prefix: string, a: string, b: string)
    requires prefix != "" && !IsDash(prefix[0]) && a != "" && !IsDash(a[|a| - 1])
    requires |prefix| + |a| == LABEL_LIMIT < |prefix| + |b| && a <= b
    ensures Shortened(prefix + b) == prefix + a
  {
    var cut := prefix + a;
    assert cut[0] == prefix[0] && cut[|cut| - 1] == a[|a| - 1];
    assert (prefix + b)[..LABEL_LIMIT] == cut;
    TrimFixes(cut, IsDash);
  }

  /** One character more is too many: an id of 55 characters shares its namespace with every longer id it starts. */
  lemma LongerIDsCollide(a: string, b: string)
    requires IsCanonicalID(a) && |a| == 55 && IsCanonicalID(b) && |b| > 55 && a <= b
    ensures a != b && NamespaceFromProjectID(a) == NamespaceFromProjectID(b)
  {
    PrefixesAreDashText();
    CanonicalName(PROJECT_PREFIX, a);
    NameOfCanonicalID(PROJECT_PREFIX, b);
    CutAtTheLimit(PROJECT_PREFIX, a, b);
  }

  // ---------------------------------------------------------------- generated ids

  function HexDigit(n: int): (c: char)
    requires 0 <= n < 16
    ensures IsAlnum(c)
  {
    if n < 10 then ('0' as int + n) as char else ('a' as int + (n - 10)) as char
  }

  function Hex(bytes: seq<int>): (s: string)
    requires forall i :: 0 <= i < |bytes| ==> 0 <= bytes[i] < 256
    ensures |s| == 2 * |bytes| && forall i :: 0 <= i < |s| ==> IsAlnum(s[i])
  {
    if bytes == [] then ""
    else [HexDigit(bytes[0] / 16), HexDigit(bytes[0] % 16)] + Hex(bytes[1..])
  }

  predicate IsRandom(bytes: seq<int>) {
    |bytes| == 16 && forall i :: 0 <= i < |bytes| ==> 0 <= bytes[i] < 256
  }

  /** NewID: version 4 and the variant bits are put into the sixteen random bytes. */
  function NewID(random: seq<int>): string
    requires IsRandom(random)
  {
    var b := random[6 := random[6] % 16 + 0x40][8 := random[8] % 64 + 0x80];
    Hex(b[..4]) + "-" + Hex(b[4..6]) + "-" + Hex(b[6..8]) + "-" + Hex(b[8..10]) + "-" + Hex(b[10..])
  }

  lemma NewIDIsCanonical(random: seq<int>)
    requires IsRandom(random)
    ensures IsCanonicalID(NewID(random)) && |NewID(random)| == 36
  {
  }

  /** Different generated ids never share a namespace or a vcluster. */
  lemma GeneratedProjectsAreApart(random: seq<int>, random': seq<int>)
    requires IsRandom(random) && IsRandom(random') && NewID(random) != NewID(random')
    ensures NamespaceFromProjectID(NewID(random)) != NamespaceFromProjectID(NewID(random'))
    ensures VclusterNameFromProjectID(NewID(random)) != VclusterNameFromProjectID(NewID(random'))
  {
    NewIDIsCanonical(random);
    NewIDIsCanonical(random');
    NamesAreInjective(NewID(random), NewID(random'));
  }
}
