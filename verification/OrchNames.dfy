/** Allocation of globally unique orchestrator names. */
module OrchNames {
  import opened Common
  import opened Texts
  import opened AppGraph

  datatype NameError = InvalidName | NameTaken | NamesExhausted

  const NAME_ATTEMPTS: nat := 10
  const BASE_LENGTH: nat := 55

  function SlugCharOrDash(c: char): char {
    if SlugChar(c) then c else '-'
  }

  function Slugify(text: string): (slug: string)
    ensures forall c :: c in slug ==> SlugChar(c)
  {
    seq(|text|, i requires 0 <= i < |text| => SlugCharOrDash(text[i]))
  }

  predicate IsDash(c: char) {
    c == '-' || c == '_'
  }

  function BaseName(hint: string): (base: string)
    ensures 1 <= |base| <= BASE_LENGTH && SlugText(base)
  {
    var trimmed := StripChars(Slugify(Lower(Strip(hint))), IsDash);
    var cut := if |trimmed| > BASE_LENGTH then trimmed[..BASE_LENGTH] else trimmed;
    if cut == "" then "orch" else cut
  }

  function Candidate(base: string, token: string): string {
    var cand := base + "-" + token;
    if |cand| > 64 then cand[..64] else cand
  }

  /** The first free candidate from the k-th random token on. */
  function FirstFree(base: string, names: set<string>, token: nat -> string, k: nat): Result<string, NameError>
    decreases NAME_ATTEMPTS - k
  {
    if k >= NAME_ATTEMPTS then Err(NamesExhausted)
    else if Candidate(base, token(k)) !in names then Ok(Candidate(base, token(k)))
    else FirstFree(base, names, token, k + 1)
  }

  function OrchName(proposed: string, hint: string, names: set<string>, token: nat -> string): Result<string, NameError> {
    if proposed != "" then
      var name := Lower(Strip(proposed));
      if !SlugMatches(name) then Err(InvalidName)
      else if name in names then Err(NameTaken)
      else Ok(name)
    else
      var base := BaseName(hint);
      if base !in names then Ok(base) else FirstFree(base, names, token, 0)
  }

  method GenerateOrchName(proposed: string, hint: string, names: set<string>, token: nat -> string)
    returns (r: Result<string, NameError>)
    ensures r == OrchName(proposed, hint, names, token)
  {
    if proposed != "" {
      var name := Lower(Strip(proposed));
      if !SlugMatches(name) { return Err(InvalidName); }
      if name in names { return Err(NameTaken); }
      return Ok(name);
    }
    var base := BaseName(hint);
    if base !in names { return Ok(base); }
    for k := 0 to NAME_ATTEMPTS
      invariant FirstFree(base, names, token, k) == FirstFree(base, names, token, 0)
    {
      var cand := Candidate(base, token(k));
      if cand !in names { return Ok(cand); }
    }
    r := Err(NamesExhausted);
  }

  /** Six hexadecimal digits. */
  predicate HexToken(token: string) {
    |token| == 6 && forall c :: c in token ==> 'a' <= c <= 'f' || '0' <= c <= '9'
  }

  lemma {:induction false} FirstFreeFresh(base: string, names: set<string>, token: nat -> string, k: nat)
    requires |base| <= BASE_LENGTH && SlugText(base) && forall i :: HexToken(token(i))
    ensures var r := FirstFree(base, names, token, k);
            r.Ok? ==> r.value !in names && SlugText(r.value)
    decreases NAME_ATTEMPTS - k
  {
    if k >= NAME_ATTEMPTS {
    } else {
      var cand := Candidate(base, token(k));
      assert HexToken(token(k));
      assert cand == base + "-" + token(k);
      FirstFreeFresh(base, names, token, k + 1);
    }
  }

  /** An allocated name is new and well formed: unlike a slug it cannot end in a line feed. */
  lemma OrchNameFresh(proposed: string, hint: string, names: set<string>, token: nat -> string)
    requires forall i :: HexToken(token(i))
    ensures var r := OrchName(proposed, hint, names, token);
            r.Ok? ==> r.value !in names && SlugText(r.value)
  {
    hide FirstFree, StripLeft, StripRight;
    FirstFreeFresh(BaseName(hint), names, token, 0);
    var stripped := Strip(proposed);
    if stripped != "" {
      assert !IsSpace(stripped[|stripped| - 1]);
      assert Lower(stripped)[|stripped| - 1] != '\n';
    }
  }

  /** A well-formed name proposes itself unchanged. */
  lemma WellFormedNameKept(name: string, hint: string, names: set<string>, token: nat -> string)
    requires SlugText(name) && name !in names
    ensures OrchName(name, hint, names, token) == Ok(name)
  {
    KeepsSlug(name);
    forall i | 0 <= i < |name|
      ensures Lower(name)[i] == name[i]
    {
      assert SlugChar(name[i]);
    }
    assert Lower(name) == name;
  }

  lemma KeepsSlug(name: string)
    requires SlugText(name)
    ensures Strip(name) == name
  {
    NoSpaces(name);
  }

  lemma NoSpaces(name: string)
    requires forall c :: c in name ==> SlugChar(c)
    ensures Strip(name) == name
  {
    forall c | c in name
      ensures !IsSpace(c)
    {
      assert SlugChar(c);
    }
    assert StripLeft(name, IsSpace) == name;
  }

  // ── Names that are not proposed ───────────────────────────────────────────

  /** Whatever a slug cannot hold becomes a dash in its place. */
  lemma SlugifiedAt(text: string, i: nat)
    requires i < |text|
    ensures |Slugify(text)| == |text| && Slugify(text)[i] == if SlugChar(text[i]) then text[i] else '-'
  {
  }

  /** A hint of slug characters with a letter or digit at either end is its own base name, up to 55 characters. */
  lemma CleanHintKept(hint: string)
    requires hint != "" && (forall c :: c in hint ==> SlugChar(c)) && !IsDash(hint[0]) && !IsDash(hint[|hint| - 1])
    ensures BaseName(hint) == if |hint| > 55 then hint[..55] else hint
  {
    NoSpaces(hint);
    forall i | 0 <= i < |hint|
      ensures Lower(hint)[i] == hint[i] && Slugify(hint)[i] == hint[i]
    {
      assert SlugChar(hint[i]);
    }
    assert Lower(hint) == hint && Slugify(hint) == hint;
  }

  lemma NoLetter(c: char)
    requires IsSpace(c) || IsDash(c) || !SlugChar(LowerChar(c))
    ensures IsDash(SlugCharOrDash(LowerChar(c)))
  {
  }

  /** A hint without any letter or digit gives the default. */
  lemma EmptyHintGivesDefault(hint: string)
    requires forall c :: c in hint ==> IsSpace(c) || IsDash(c) || !SlugChar(LowerChar(c))
    ensures BaseName(hint) == "orch"
  {
    var stripped := Strip(hint);
    var slug := Slugify(Lower(stripped));
    StrippedExactly(hint, IsSpace);
    StrippedExactly(slug, IsDash);
    hide StripChars, IsSpace, IsDash, SlugChar, SlugCharOrDash, LowerChar;
    forall i | 0 <= i < |slug|
      ensures IsDash(slug[i])
    {
      assert stripped[i] in hint;
      NoLetter(stripped[i]);
    }
    assert StripChars(slug, IsDash) == "";
  }

  /** The base name if it is free, otherwise the first free of ten candidates, otherwise none. */
  lemma UnproposedName(hint: string, names: set<string>, token: nat -> string, name: string)
    requires forall i :: HexToken(token(i))
    ensures var r, base := OrchName("", hint, names, token), BaseName(hint);
            && (r == Ok(name) <==>
                  (name !in names && (name == base || (base in names && exists k: nat :: k < 10 && FreeAt(base, names, token, k, name)))))
            && (r.Err? <==> (base in names && forall k: nat :: k < 10 ==> base + "-" + token(k) in names))
            && (r.Err? ==> r.error == NamesExhausted)
  {
    FirstFreeExact(BaseName(hint), names, token, 0, name);
  }

  /** Candidate `k` is `name`, and those before it are taken. */
  ghost predicate FreeAt(base: string, names: set<string>, token: nat -> string, k: nat, name: string) {
    base + "-" + token(k) == name && forall j: nat :: j < k ==> base + "-" + token(j) in names
  }

  lemma {:induction false} FirstFreeExact(base: string, names: set<string>, token: nat -> string, k: nat, name: string)
    requires |base| <= BASE_LENGTH && forall i :: HexToken(token(i))
    requires k <= 10 && forall j: nat :: j < k ==> base + "-" + token(j) in names
    ensures var r := FirstFree(base, names, token, k);
            && (r == Ok(name) <==> (name !in names && exists i: nat :: i < 10 && FreeAt(base, names, token, i, name)))
            && (r.Err? <==> forall i: nat :: i < 10 ==> base + "-" + token(i) in names)
            && (r.Err? ==> r.error == NamesExhausted)
    decreases 10 - k
  {
    if k >= 10 {
    } else {
      var cand := base + "-" + token(k);
      assert HexToken(token(k));
      assert Candidate(base, token(k)) == cand;
      if cand in names {
        FirstFreeExact(base, names, token, k + 1, name);
      } else {
        assert FreeAt(base, names, token, k, cand);
      }
    }
  }

  lemma EndsInNoLineFeed(text: string)
    requires text != "" ==> text[|text| - 1] != '\n'
    ensures SlugMatches(text) <==> SlugText(text)
  {
  }

  /** A proposed name is taken as it is, but for blanks around it and upper case, or refused with the reason. */
  lemma ProposedName(proposed: string, hint: string, names: set<string>, token: nat -> string)
    requires proposed != ""
    ensures exists from, to ::
      && 0 <= from <= to <= |proposed| && Bounds(proposed, IsSpace, from, to)
      && var asked := Lower(proposed[from..to]);
      && OrchName(proposed, hint, names, token) ==
           if !SlugText(asked) then Err(InvalidName) else if asked in names then Err(NameTaken) else Ok(asked)
  {
    StrippedExactly(proposed, IsSpace);
    hide SlugText, SlugMatches, StripChars, BaseName, FirstFree;
    var from, to :| 0 <= from <= to <= |proposed| && Bounds(proposed, IsSpace, from, to) && StripChars(proposed, IsSpace) == proposed[from..to];
    var asked := Lower(proposed[from..to]);
    if from < to {
      assert !IsSpace(proposed[to - 1]);
      assert asked[|asked| - 1] == LowerChar(proposed[to - 1]);
    }
    EndsInNoLineFeed(asked);
    assert Strip(proposed) == proposed[from..to];
  }
}
