/** What slugs, paths and Kubernetes names say about the text that they are made from. */
module NameMeaning {
  import opened Text
  import opened Names

  // ---------------------------------------------------------------- a slug is the words of its name

  /** The longest pieces of letters a-z and digits. */
  function Words(s: string): (words: seq<string>)
    ensures s != "" && IsAlnum(s[|s| - 1]) ==> words != []
  {
    if s == "" then []
    else
      var front, c := s[..|s| - 1], s[|s| - 1];
      if !IsAlnum(c) then Words(front)
      else if front != "" && IsAlnum(front[|front| - 1]) then
        Words(front)[..|Words(front)| - 1] + [Words(front)[|Words(front)| - 1] + [c]]
      else Words(front) + [[c]]
  }

  function Joined(words: seq<string>): string {
    if words == [] then ""
    else if |words| == 1 then words[0]
    else Joined(words[..|words| - 1]) + "-" + words[|words| - 1]
  }

  lemma JoinOneMore(words: seq<string>, word: string)
    ensures Joined(words + [word]) == if words == [] then word else Joined(words) + "-" + word
  {
    assert (words + [word])[..|words|] == words;
  }

  lemma JoinLonger(front: seq<string>, last: string, c: char)
    ensures Joined(front + [last + [c]]) == Joined(front + [last]) + [c]
  {
    JoinOneMore(front, last + [c]);
    JoinOneMore(front, last);
    Appended(Joined(front) + "-", last, c);
  }

  lemma Appended(a: string, b: string, c: char)
    ensures a + (b + [c]) == a + b + [c]
  {
  }

  lemma {:induction false} NoWords(s: string)
    ensures Words(s) == [] ==> forall i :: 0 <= i < |s| ==> !IsAlnum(s[i])
  {
    if s != "" {
      NoWords(s[..|s| - 1]);
    }
  }

  predicate IsWord(w: string) {
    w != "" && forall i :: 0 <= i < |w| ==> IsAlnum(w[i])
  }

  ghost predicate AreWords(words: seq<string>) {
    forall i :: 0 <= i < |words| ==> IsWord(words[i])
  }

  lemma {:induction false} WordsAreWords(s: string)
    ensures AreWords(Words(s))
  {
    if s != "" {
      var front, c := s[..|s| - 1], s[|s| - 1];
      WordsAreWords(front);
      assert IsAlnum(c) ==> IsWord([c]);
      if IsAlnum(c) && front != "" && IsAlnum(front[|front| - 1]) {
        assert IsWord(Words(front)[|Words(front)| - 1] + [c]);
      }
    }
  }

  lemma {:induction false} JoinedIsBounded(words: seq<string>)
    requires AreWords(words) && words != []
    ensures var j := Joined(words); j != "" && IsAlnum(j[0]) && IsAlnum(j[|j| - 1])
  {
    assert IsWord(words[|words| - 1]);
    if |words| > 1 {
      JoinedIsBounded(words[..|words| - 1]);
    }
  }

  function Dash(b: bool): string {
    if b then "-" else ""
  }

  predicate StartsOff(s: string) {
    s != "" && !IsAlnum(s[0])
  }

  predicate EndsOff(s: string) {
    s != "" && !IsAlnum(s[|s| - 1])
  }

  /** A dash between words, and one in front and behind if the text does not start or end with a word. */
  function Edged(s: string): string {
    if Words(s) == [] then Dash(s != "") else Dash(StartsOff(s)) + Joined(Words(s)) + Dash(EndsOff(s))
  }

  lemma DashedStep(front: string, c: char)
    ensures var d := Dashed(front);
      Dashed(front + [c]) == if IsAlnum(c) then d + [c] else if d != "" && d[|d| - 1] == '-' then d else d + "-"
  {
    assert (front + [c])[..|front|] == front;
  }

  lemma {:induction false} DashedWords(s: string)
    ensures Dashed(s) == Edged(s)
  {
    if s != "" {
      var front, c := s[..|s| - 1], s[|s| - 1];
      assert s == front + [c];
      DashedWords(front);
      NextRune(front, c);
    }
  }

  lemma NextRune(front: string, c: char)
    requires Dashed(front) == Edged(front)
    ensures Dashed(front + [c]) == Edged(front + [c])
  {
    DashedStep(front, c);
    if IsAlnum(c) {
      NextLetter(front, c);
    } else {
      NextSeparator(front, c);
    }
  }

  lemma NextLetter(front: string, c: char)
    requires IsAlnum(c)
    ensures Edged(front + [c]) == Edged(front) + [c]
  {
    NoWords(front);
    if front != "" && IsAlnum(front[|front| - 1]) {
      GrowingWord(front, c);
    } else if Words(front) == [] {
      FirstWord(front, c);
    } else {
      NewWord(front, c);
    }
  }

  lemma EdgesStay(front: string, c: char)
    requires IsAlnum(c) && front != ""
    ensures StartsOff(front + [c]) == StartsOff(front) && !EndsOff(front + [c])
  {
  }

  lemma GrowingWord(front: string, c: char)
    requires IsAlnum(c) && front != "" && IsAlnum(front[|front| - 1])
    ensures Edged(front + [c]) == Edged(front) + [c]
  {
    LastWordGrows(front, c);
    EdgesStay(front, c);
    Glued(Dash(StartsOff(front)), Joined(Words(front)), "", c);
  }

  lemma NewWord(front: string, c: char)
    requires IsAlnum(c) && Words(front) != [] && !IsAlnum(front[|front| - 1])
    ensures Edged(front + [c]) == Edged(front) + [c]
  {
    assert (front + [c])[..|front|] == front;
    JoinOneMore(Words(front), [c]);
    EdgesStay(front, c);
    Glued(Dash(StartsOff(front)), Joined(Words(front)), "-", c);
  }

  lemma LastWordGrows(front: string, c: char)
    requires IsAlnum(c) && front != "" && IsAlnum(front[|front| - 1])
    ensures Words(front + [c]) != [] && Joined(Words(front + [c])) == Joined(Words(front)) + [c]
  {
    var words := Words(front);
    assert (front + [c])[..|front|] == front;
    JoinLonger(words[..|words| - 1], words[|words| - 1], c);
    assert words[..|words| - 1] + [words[|words| - 1]] == words;
  }

  lemma FirstWord(front: string, c: char)
    requires IsAlnum(c) && Words(front) == []
    ensures Edged(front + [c]) == Dash(front != "") + [c]
  {
    var s := front + [c];
    assert s[..|s| - 1] == front;
    NoWords(front);
    assert Words(s) == [[c]];
    assert StartsOff(s) == (front != "") && !EndsOff(s);
    Glued(Dash(front != ""), "", "", c);
    OneWord([c]);
  }

  lemma OneWord(w: string)
    ensures Joined([w]) == w
  {
  }

  lemma Glued(a: string, b: string, m: string, c: char)
    ensures a + (b + m + [c]) + "" == a + b + m + [c]
    ensures a + (b + [c]) + "" == a + b + [c] && a + b + "" == a + b
  {
  }

  lemma NextSeparator(front: string, c: char)
    requires !IsAlnum(c)
    ensures var e := Edged(front); Edged(front + [c]) == if e != "" && e[|e| - 1] == '-' then e else e + "-"
  {
    var s := front + [c];
    assert s[..|s| - 1] == front;
    if Words(front) == [] {
      assert Edged(s) == "-";
    } else {
      assert s[0] == front[0] && EndsOff(s);
      WordsAreWords(front);
      JoinedIsBounded(Words(front));
      SeparatorGlued(Dash(StartsOff(front)), Joined(Words(front)), EndsOff(front));
    }
  }

  lemma SeparatorGlued(p: string, j: string, b: bool)
    requires j != "" && IsAlnum(j[|j| - 1])
    ensures var e := p + j + Dash(b); e != "" && (if e[|e| - 1] == '-' then e else e + "-") == p + j + "-"
  {
    assert p + j + "" == p + j;
  }

  lemma UndashedEdges(j: string, before: bool, behind: bool)
    requires j != "" && IsAlnum(j[0]) && IsAlnum(j[|j| - 1])
    ensures Undashed(Dash(before) + j + Dash(behind)) == j
  {
    FrontDash(j + Dash(behind), before);
    BackDash(j, behind);
    Reassociated(Dash(before), j, Dash(behind));
  }

  lemma Reassociated(a: string, b: string, c: string)
    ensures a + b + c == a + (b + c)
  {
  }

  lemma FrontDash(rest: string, before: bool)
    requires rest != "" && IsAlnum(rest[0])
    ensures TrimLeft(Dash(before) + rest, IsDash) == rest
  {
    var s := Dash(before) + rest;
    assert before ==> s[0] == '-' && s[1..] == rest;
    assert !before ==> s == rest;
  }

  lemma BackDash(j: string, behind: bool)
    requires j != "" && IsAlnum(j[|j| - 1])
    ensures TrimRight(j + Dash(behind), IsDash) == j
  {
    var s := j + Dash(behind);
    assert behind ==> s[|s| - 1] == '-' && s[..|s| - 1] == j;
    assert !behind ==> s == j;
  }

  lemma {:induction false} WordsSkip(c: char, rest: string)
    requires !IsAlnum(c)
    ensures Words([c] + rest) == Words(rest)
  {
    var s := [c] + rest;
    if rest == "" {
      assert s[..|s| - 1] == "";
    } else {
      var front := rest[..|rest| - 1];
      assert s[..|s| - 1] == [c] + front && s[|s| - 1] == rest[|rest| - 1];
      assert ([c] + front)[|front|] == if front == "" then c else front[|front| - 1];
      WordsSkip(c, front);
    }
  }

  lemma {:induction false} TrimLeftKeepsWords(s: string)
    ensures Words(TrimLeft(s, IsSpace)) == Words(s)
  {
    if s != "" && IsSpace(s[0]) {
      assert s == [s[0]] + s[1..];
      WordsSkip(s[0], s[1..]);
      TrimLeftKeepsWords(s[1..]);
    }
  }

  lemma {:induction false} TrimRightKeepsWords(s: string)
    ensures Words(TrimRight(s, IsSpace)) == Words(s)
  {
    if s != "" && IsSpace(s[|s| - 1]) {
      TrimRightKeepsWords(s[..|s| - 1]);
    }
  }

  /** The slug of a name is the words of its lower case with single dashes between them, whatever separates them in the name. */
  lemma SlugIsTheWords(value: string)
    ensures Slug(value) == Joined(Words(Lower(value)))
  {
    var lower := Lower(value);
    var raw := Trim(lower);
    TrimLeftKeepsWords(lower);
    TrimRightKeepsWords(TrimLeft(lower, IsSpace));
    DashedWords(raw);
    if Words(raw) != [] {
      WordsAreWords(raw);
      JoinedIsBounded(Words(raw));
      UndashedEdges(Joined(Words(raw)), StartsOff(raw), EndsOff(raw));
    } else {
      NoDash(raw != "");
    }
  }

  lemma NoDash(b: bool)
    ensures Undashed(Dash(b)) == ""
  {
    assert Dash(true)[1..] == "";
  }

  // ---------------------------------------------------------------- names that are kept as they are, but for odd characters

  /** A piece of the text, from the first to the last letter or digit, in which everything else is a dash. */
  ghost predicate IsSanitized(lower: string, r: string, from: nat) {
    && from + |r| <= |lower|
    && (forall i :: 0 <= i < |r| ==> r[i] == if 'a' <= lower[from + i] <= 'z' || '0' <= lower[from + i] <= '9' then lower[from + i] else '-')
    && (forall i :: 0 <= i < |lower| && IsAlnum(lower[i]) ==> from <= i < from + |r|)
    && (r != "" ==> IsAlnum(r[0]) && IsAlnum(r[|r| - 1]))
  }

  lemma SanitizedIsThePiece(lower: string) returns (from: nat)
    ensures IsSanitized(lower, Sanitized(lower), from)
  {
    MapTwice(lower, UnderscoreToDash, OtherToDash);
    forall i | 0 <= i < |lower|
      ensures OtherToDash(UnderscoreToDash(lower[i])) == Kept(lower[i])
    {
      KeptRune(lower[i]);
    }
    from := PieceOf(lower, Map(Map(lower, UnderscoreToDash), OtherToDash));
  }

  function Kept(c: char): char {
    if 'a' <= c <= 'z' || '0' <= c <= '9' then c else '-'
  }

  lemma KeptRune(c: char)
    ensures OtherToDash(UnderscoreToDash(c)) == Kept(c)
  {
  }

  lemma MapTwice(s: string, f: char -> char, g: char -> char)
    ensures |Map(Map(s, f), g)| == |s| && forall i :: 0 <= i < |s| ==> Map(Map(s, f), g)[i] == g(f(s[i]))
  {
  }

  lemma PieceOf(lower: string, m: string) returns (from: nat)
    requires |m| == |lower| && forall i :: 0 <= i < |lower| ==> m[i] == Kept(lower[i])
    ensures IsSanitized(lower, TrimWith(m, IsDash), from)
  {
    from := TrimmedMargins(m, IsDash);
    forall i | 0 <= i < |lower| && IsAlnum(lower[i])
      ensures from <= i < from + |TrimWith(m, IsDash)|
    {
      assert !IsDash(m[i]);
    }
    KeptPiece(lower, m, from, TrimWith(m, IsDash));
  }

  lemma KeptPiece(lower: string, m: string, from: nat, r: string)
    requires |m| == |lower| && forall i :: 0 <= i < |lower| ==> m[i] == Kept(lower[i])
    requires from + |r| <= |m| && r == m[from..from + |r|] && (r != "" ==> !IsDash(r[0]) && !IsDash(r[|r| - 1]))
    requires forall i :: 0 <= i < |lower| && IsAlnum(lower[i]) ==> from <= i < from + |r|
    ensures IsSanitized(lower, r, from)
  {
    forall i | 0 <= i < |r|
      ensures r[i] == Kept(lower[from + i])
    {
      assert r[i] == m[from + i];
    }
  }

  // ---------------------------------------------------------------- literal paths and names

  lemma PathsAreWritten(slug: string)
    ensures StageWorkflowPath(slug)
         == if slug == "" || slug == "production" then ".github/workflows/deploy-service.yml"
            else ".github/workflows/" + ("deploy-service-" + slug + ".yml")
  {
  }

  /** Which slug a file belongs to, whatever directory it is in: the two names of the production file, a stage's file, or none. */
  lemma ParseIsExact(dir: string, base: string)
    requires '/' !in base && (dir == "" || dir[|dir| - 1] == '/')
    ensures var slug := StageSlugFromWorkflowPath(dir + base);
      && (base == "deploy-service.yml" || base == "deploy-deploy-service.yml" ==> slug == "production")
      && (forall name :: base == "deploy-service-" + name + ".yml" ==> slug == name)
      && (slug != "" && base != "deploy-service.yml" && base != "deploy-deploy-service.yml" ==> base == "deploy-service-" + slug + ".yml")
  {
    FileIsTheBase(dir, base);
    forall name | base == "deploy-service-" + name + ".yml"
      ensures SlugOfFile(base) == name
    {
      StageFileIsNotProduction(name);
      Wrapped("deploy-service-", name, ".yml");
    }
    OnlyStageFiles(base);
  }

  lemma FileIsTheBase(dir: string, base: string)
    requires '/' !in base && (dir == "" || dir[|dir| - 1] == '/')
    ensures AfterLastSlash(dir + base) == base
  {
    if dir == "" {
      assert dir + base == base;
      FileAlone(base);
    } else {
      BaseOf(dir, base);
    }
  }

  lemma {:induction false} FileAlone(base: string)
    requires '/' !in base
    ensures AfterLastSlash(base) == base
  {
    if base != "" {
      FileAlone(base[..|base| - 1]);
    }
  }

  lemma OnlyStageFiles(base: string)
    ensures var slug := SlugOfFile(base);
      slug != "" && base != "deploy-service.yml" && base != "deploy-deploy-service.yml" ==> base == "deploy-service-" + slug + ".yml"
  {
    var slug := SlugOfFile(base);
    if slug != "" && base != "deploy-service.yml" && base != "deploy-deploy-service.yml" {
      StageFileIsLong(base);
      Unwrapped("deploy-service-", base, ".yml");
    }
  }

  lemma StageFileIsLong(base: string)
    requires "deploy-service-" <= base && |base| >= 4 && base[|base| - 4..] == ".yml"
    ensures |base| >= 19
  {
    assert base[14] == '-';
    assert base[|base| - 4] == '.' && base[|base| - 3] == 'y' && base[|base| - 2] == 'm' && base[|base| - 1] == 'l';
  }

  lemma Unwrapped(front: string, s: string, back: string)
    requires |s| >= |front| + |back| && front <= s && s[|s| - |back|..] == back
    ensures var rest := s[|front|..];
      rest[|rest| - |back|..] == back && s == front + rest[..|rest| - |back|] + back
  {
  }

  /** Ids that fit are kept whole behind the prefix. */
  lemma CanonicalNames(id: string)
    requires IsCanonicalID(id)
    ensures |id| <= 55 ==> NamespaceFromProjectID(id) == "project-" + id
    ensures |id| <= 54 ==> VclusterNameFromProjectID(id) == "vcluster-" + id
  {
    if |id| <= 55 {
      CanonicalName("project-", id);
    }
    if |id| <= 54 {
      CanonicalName("vcluster-", id);
    }
  }

  /** For an id without a letter or digit both names fall back on one word. */
  lemma NamelessProject(id: string)
    requires forall i :: 0 <= i < |Lower(id)| ==> !IsAlnum(Lower(id)[i])
    ensures NamespaceFromProjectID(id) == "project-project" && VclusterNameFromProjectID(id) == "vcluster-project"
  {
    var from := SanitizedIsThePiece(Lower(id));
    assert Sanitized(Lower(id)) == "";
    assert "project-" + "project" == "project-project" && "vcluster-" + "project" == "vcluster-project";
  }

  // ---------------------------------------------------------------- generated ids

  lemma HexDigitIsInjective(a: int, b: int)
    requires 0 <= a < 16 && 0 <= b < 16 && HexDigit(a) == HexDigit(b)
    ensures a == b
  {
  }

  ghost predicate AreBytes(bytes: seq<int>) {
    forall i :: 0 <= i < |bytes| ==> 0 <= bytes[i] < 256
  }

  lemma {:induction false} HexIsInjective(a: seq<int>, b: seq<int>)
    requires AreBytes(a) && AreBytes(b) && |a| == |b| && Hex(a) == Hex(b)
    ensures a == b
  {
    if a != [] {
      HexOfFirst(a);
      HexOfFirst(b);
      HexDigitIsInjective(a[0] / 16, b[0] / 16);
      HexDigitIsInjective(a[0] % 16, b[0] % 16);
      HexIsInjective(a[1..], b[1..]);
      assert a == [a[0]] + a[1..] && b == [b[0]] + b[1..];
    }
  }

  lemma HexOfFirst(a: seq<int>)
    requires AreBytes(a) && a != []
    ensures Hex(a)[0] == HexDigit(a[0] / 16) && Hex(a)[1] == HexDigit(a[0] % 16) && Hex(a)[2..] == Hex(a[1..])
  {
  }

  /** An id is made of the random bytes but for the six bits of the version and the variant. */
  ghost predicate SameRandom(a: seq<int>, b: seq<int>)
    requires IsRandom(a) && IsRandom(b)
  {
    a[6] % 16 == b[6] % 16 && a[8] % 64 == b[8] % 64 && forall i :: 0 <= i < 16 && i != 6 && i != 8 ==> a[i] == b[i]
  }

  function Stamped(random: seq<int>): seq<int>
    requires IsRandom(random)
  {
    random[6 := 0x40 + random[6] % 16][8 := 0x80 + random[8] % 64]
  }

  lemma PartsOfID(random: seq<int>)
    requires IsRandom(random)
    ensures var b, id := Stamped(random), NewID(random);
      && |id| == 36 && AreBytes(b)
      && id[0..8] == Hex(b[..4]) && id[9..13] == Hex(b[4..6]) && id[14..18] == Hex(b[6..8])
      && id[19..23] == Hex(b[8..10]) && id[24..36] == Hex(b[10..])
      && id[8] == id[13] == id[18] == id[23] == '-'
  {
  }

  lemma SameIDSameStamp(random: seq<int>, random': seq<int>)
    requires IsRandom(random) && IsRandom(random') && NewID(random) == NewID(random')
    ensures Stamped(random) == Stamped(random')
  {
    var b, b' := Stamped(random), Stamped(random');
    PartsOfID(random);
    PartsOfID(random');
    HexIsInjective(b[..4], b'[..4]);
    HexIsInjective(b[4..6], b'[4..6]);
    HexIsInjective(b[6..8], b'[6..8]);
    HexIsInjective(b[8..10], b'[8..10]);
    HexIsInjective(b[10..], b'[10..]);
    PartsMakeTheWhole(b, b');
  }

  lemma PartsMakeTheWhole(b: seq<int>, b': seq<int>)
    requires |b| == |b'| == 16 && b[..4] == b'[..4] && b[4..6] == b'[4..6] && b[6..8] == b'[6..8] && b[8..10] == b'[8..10] && b[10..] == b'[10..]
    ensures b == b'
  {
    forall i | 0 <= i < 16
      ensures b[i] == b'[i]
    {
      if i < 4 {
        assert b[..4][i] == b'[..4][i];
      } else if i < 6 {
        assert b[4..6][i - 4] == b'[4..6][i - 4];
      } else if i < 8 {
        assert b[6..8][i - 6] == b'[6..8][i - 6];
      } else if i < 10 {
        assert b[8..10][i - 8] == b'[8..10][i - 8];
      } else {
        assert b[10..][i - 10] == b'[10..][i - 10];
      }
    }
  }

  /** Generated ids are equal exactly if their random bits are. */
  lemma GeneratedIDsAgreeIff(random: seq<int>, random': seq<int>)
    requires IsRandom(random) && IsRandom(random')
    ensures NewID(random) == NewID(random') <==> SameRandom(random, random')
  {
    if SameRandom(random, random') {
      assert Stamped(random) == Stamped(random');
    }
    if NewID(random) == NewID(random') {
      SameIDSameStamp(random, random');
      SameStampSameRandom(random, random');
    }
  }

  lemma SameStampSameRandom(random: seq<int>, random': seq<int>)
    requires IsRandom(random) && IsRandom(random') && Stamped(random) == Stamped(random')
    ensures SameRandom(random, random')
  {
    var b, b' := Stamped(random), Stamped(random');
    assert b[6] == 0x40 + random[6] % 16 && b'[6] == 0x40 + random'[6] % 16;
    assert b[8] == 0x80 + random[8] % 64 && b'[8] == 0x80 + random'[8] % 64;
    forall i | 0 <= i < 16 && i != 6 && i != 8
      ensures random[i] == random'[i]
    {
      assert b[i] == random[i] && b'[i] == random'[i];
    }
  }
}
