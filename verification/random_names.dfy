/**
 * Temporary pipe names (pipes/utils.go): a 32-bit linear-congruential
 * generator rendered as a 9-digit token, substituted into file-name
 * patterns and retried until every resulting path is free.
 */
module RandomNames {
  import opened Os
  import opened Decimal

  type Uint32 = x: int | 0 <= x < 0x1_0000_0000

  const Multiplier := 1664525
  const Increment := 1013904223
  const Modulus := 0x1_0000_0000
  /** The inverse of Multiplier modulo 2^32. */
  const MultiplierInverse := 4276115653

  /** Number of candidate sets drawn before the search gives up. */
  const Attempts := 10

  const ErrExhausted := Msg("Ran out of max attemtps to find random pipe names")

  /** One generator step in uint32 arithmetic, wrapping at 2^32. */
  function Lcg(r: Uint32): Uint32 {
    (r * Multiplier + Increment) % Modulus
  }

  /** The state after one draw: a zero state is first replaced by the seed.
      Running the step backwards recovers the state that was stepped. */
  function NextState(r: Uint32, seed: Uint32): (s: Uint32)
    ensures Unlcg(s) == (if r == 0 then seed else r)
  {
    LcgBijective(if r == 0 then seed else r);
    Lcg(if r == 0 then seed else r)
  }

  /** The step run backwards. */
  function Unlcg(r: Uint32): Uint32 {
    ((r - Increment) * MultiplierInverse) % Modulus
  }

  lemma ModShift(a: int, t: int)
    ensures (a + Modulus * t) % Modulus == a % Modulus
  {
    DivModUnique(a + Modulus * t, Modulus, a / Modulus + t, a % Modulus);
  }

  /** The generator step is a bijection on 32-bit states: no two states
      lead to the same next state. */
  lemma LcgBijective(r: Uint32)
    ensures Unlcg(Lcg(r)) == r
    ensures Lcg(Unlcg(r)) == r
  {
    // Multiplier * MultiplierInverse == 1 + 1657219 * Modulus
    var x := r * Multiplier + Increment;
    var q := x / Modulus;
    assert Lcg(r) == x - Modulus * q;
    assert (Lcg(r) - Increment) * MultiplierInverse
        == r + Modulus * (r * 1657219 - q * MultiplierInverse);
    ModShift(r, r * 1657219 - q * MultiplierInverse);

    var y := (r - Increment) * MultiplierInverse;
    var p := y / Modulus;
    assert Unlcg(r) == y - Modulus * p;
    assert Unlcg(r) * Multiplier + Increment
        == r + Modulus * ((r - Increment) * 1657219 - p * Multiplier);
    ModShift(r, (r - Increment) * 1657219 - p * Multiplier);
  }

  /** The name token for a generator state: `r % 1e9` written in exactly
      nine decimal digits, leading zeros kept. */
  function Token(r: Uint32): (t: string)
    ensures |t| == 9 && IsDigits(t)
  {
    Padded(r % 1000000000, 9)
  }

  /** The token read as a decimal number is `r % 1e9`. */
  lemma TokenValue(r: Uint32)
    ensures ValueOf(Token(r)) == r % 1000000000
  {
    var n := r % 1000000000;
    PaddedValue(n, 9);
    Pow10Nine();
    DivModUnique(n, 1000000000, 0, n);
    assert ValueOf(Token(r)) == n % 1000000000;
  }

  /** Rendering 1e9 + x and dropping the leading '1' leaves x in nine digits. */
  lemma DropLeadingOne(x: nat)
    requires x < 1000000000
    ensures |Itoa(1000000000 + x)| == 10
    ensures IsDigits(Itoa(1000000000 + x)[1..])
    ensures ValueOf(Itoa(1000000000 + x)[1..]) == x
  {
    var n := 1000000000 + x;
    var s := Itoa(n);
    Pow10Nine();
    ItoaLeadingOne(n, 9);
    ItoaValue(n);
    ValueOfHead(s);
    assert DigitValue(s[0]) == 1;
  }

  /** `strconv.Itoa(int(1e9 + r%1e9))[1:]`, the rendering `nextRandom`
      returns, is the token of `r`. */
  lemma ItoaTrick(r: Uint32)
    ensures |Itoa(1000000000 + r % 1000000000)| == 10
    ensures Itoa(1000000000 + r % 1000000000)[1..] == Token(r)
  {
    var x := r % 1000000000;
    DropLeadingOne(x);
    TokenValue(r);
    ValueOfInjective(Itoa(1000000000 + x)[1..], Token(r));
  }

  /** Two states give the same token exactly when they agree modulo 1e9. */
  lemma TokenInjective(a: Uint32, b: Uint32)
    ensures Token(a) == Token(b) <==> a % 1000000000 == b % 1000000000
  {
    TokenValue(a);
    TokenValue(b);
    if a % 1000000000 == b % 1000000000 {
      assert Token(a) == Padded(b % 1000000000, 9);
    }
  }

  /** The process-wide generator state (`rand`); 0 means not yet seeded. */
  class Generator {
    var state: Uint32

    constructor ()
      ensures state == 0
    {
      state := 0;
    }

    /** `nextRandom`: advance the state, reseeding it first when it is 0,
        and return the token of the new state. */
    method Next(seed: Uint32) returns (token: string)
      modifies this
      ensures state == NextState(old(state), seed)
      ensures token == Token(state)
    {
      var r := state;
      if r == 0 {
        r := seed;
      }
      r := (r * Multiplier + Increment) % Modulus;
      assert r == NextState(old(state), seed);
      state := r;
      ItoaTrick(r);
      token := Itoa(1000000000 + r % 1000000000)[1..];
    }
  }

  /** `strings.LastIndex(s, string(c))`: the last position of `c`, or -1. */
  function LastIndex(s: string, c: char): (r: int)
    ensures -1 <= r < |s|
    ensures r == -1 <==> c !in s
    ensures r >= 0 ==> s[r] == c
    ensures forall j :: r < j < |s| ==> s[j] != c
  {
    if s == [] then -1
    else if s[|s| - 1] == c then |s| - 1
    else LastIndex(s[..|s| - 1], c)
  }

  /** The file name for one pattern: the token replaces the last '*', or is
      appended when the pattern has no '*'. */
  function Substitute(pattern: string, token: string): (name: string)
    ensures '*' !in pattern ==> name == pattern + token
    ensures |name| >= |token|
  {
    var pos := LastIndex(pattern, '*');
    if pos != -1 then pattern[..pos] + token + pattern[pos + 1..] else pattern + token
  }

  /** Only the last '*' of a pattern is replaced; a pattern without one gets
      the token at its end. */
  lemma SubstituteShape(pattern: string, token: string)
    ensures '*' !in pattern ==> Substitute(pattern, token) == pattern + token
    ensures '*' in pattern ==>
      exists pos :: 0 <= pos < |pattern| && pattern[pos] == '*' && '*' !in pattern[pos + 1..] &&
                    Substitute(pattern, token) == pattern[..pos] + token + pattern[pos + 1..]
  {
    var pos := LastIndex(pattern, '*');
    if '*' in pattern {
      var rest := pattern[pos + 1..];
      assert forall j :: 0 <= j < |rest| ==> rest[j] == pattern[pos + 1 + j];
      assert pattern[pos] == '*' && '*' !in rest;
      assert Substitute(pattern, token) == pattern[..pos] + token + rest;
    }
  }

  /** A pattern that is a '*' followed by a suffix without one yields token + suffix. */
  lemma SubstituteLeadingStar(pattern: string, token: string)
    requires |pattern| >= 1 && pattern[0] == '*' && '*' !in pattern[1..]
    ensures Substitute(pattern, token) == token + pattern[1..]
  {
    assert LastIndex(pattern, '*') == 0;
    assert pattern[..0] + token + pattern[1..] == token + pattern[1..];
  }

  /** The candidate path set of one attempt: every pattern with the one
      token, joined with the directory, in the order of the patterns. */
  function Candidates(tmpDir: Path, patterns: seq<string>, token: string): (files: seq<Path>)
    ensures |files| == |patterns|
  {
    if patterns == [] then []
    else Candidates(tmpDir, patterns[..|patterns| - 1], token)
         + [Join(tmpDir, Substitute(patterns[|patterns| - 1], token))]
  }

  /** Entry k of the set is pattern k with the token, under the directory. */
  lemma {:induction false} CandidateAt(tmpDir: Path, patterns: seq<string>, token: string, k: nat)
    requires k < |patterns|
    ensures Candidates(tmpDir, patterns, token)[k] == Join(tmpDir, Substitute(patterns[k], token))
  {
    if k < |patterns| - 1 {
      CandidateAt(tmpDir, patterns[..|patterns| - 1], token, k);
    }
  }

  /** A non-empty token makes every candidate path non-empty, so the length
      test of `filesAreValid` never rejects a candidate. */
  lemma CandidatesNonEmpty(tmpDir: Path, patterns: seq<string>, token: string)
    requires token != []
    ensures forall k :: 0 <= k < |patterns| ==> Candidates(tmpDir, patterns, token)[k] != []
  {
    forall k | 0 <= k < |patterns| ensures Candidates(tmpDir, patterns, token)[k] != [] {
      CandidateAt(tmpDir, patterns, token, k);
      var pos := LastIndex(patterns[k], '*');
      assert |Substitute(patterns[k], token)| >= |token|;
    }
  }

  /** A path passes the test when it is non-empty and probes as not existing. */
  predicate ValidPath(file: Path, fs: FileSystem) {
    file != [] && Stat(fs, file).Missing?
  }

  /** The acceptance test of a whole set: one failing path rejects it. */
  predicate AllValid(files: seq<Path>, fs: FileSystem) {
    forall k :: 0 <= k < |files| ==> ValidPath(files[k], fs)
  }

  /** `filesAreValid`: stops at the first empty or not-missing path. */
  method FilesAreValid(files: seq<Path>, fs: FileSystem) returns (valid: bool)
    ensures valid <==> AllValid(files, fs)
  {
    for k := 0 to |files|
      invariant forall j :: 0 <= j < k ==> ValidPath(files[j], fs)
    {
      if |files[k]| == 0 {
        return false;
      }
      if !Stat(fs, files[k]).Missing? {
        return false;
      }
    }
    return true;
  }

  /** The values `reseed` would return (clock plus process id), one per attempt of a search
      (a reading is used only when the generator state is 0); attempts past
      the last reading read 0. */
  datatype Clock = Clock(readings: seq<Uint32>)

  function Reading(c: Clock, i: nat): Uint32 {
    if i < |c.readings| then c.readings[i] else 0
  }

  /** The generator state after `count` draws, draw i seeded by reading `from + i`. */
  function StateAfter(state: Uint32, reseed: Clock, from: nat, count: nat): Uint32
    decreases count
  {
    if count == 0 then state else StateAfter(NextState(state, Reading(reseed, from)), reseed, from + 1, count - 1)
  }

  /** What a name search returns, the generator state it leaves and how many tokens it drew. */
  datatype NameSearch = NameSearch(result: Result<seq<Path>>, state: Uint32, draws: nat)

  /**
   * The retry loop from attempt `i` on: the first candidate set that passes
   * the test is returned; after the last attempt the search fails.
   */
  function SearchFrom(state: Uint32, i: nat, patterns: seq<string>, tmpDir: Path,
                      fs: FileSystem, reseed: Clock): (o: NameSearch)
    requires i <= Attempts
    ensures o.draws <= Attempts - i
    ensures o.result.Ok? ==>
      && o.draws >= 1
      && o.result.value == Candidates(tmpDir, patterns, Token(o.state))
      && AllValid(o.result.value, fs)
    ensures o.result.Err? ==> o.result == Err(ErrExhausted) && o.draws == Attempts - i
    decreases Attempts - i
  {
    if i == Attempts then NameSearch(Err(ErrExhausted), state, 0)
    else
      var s := NextState(state, Reading(reseed, i));
      var files := Candidates(tmpDir, patterns, Token(s));
      if AllValid(files, fs) then NameSearch(Ok(files), s, 1)
      else
        var o := SearchFrom(s, i + 1, patterns, tmpDir, fs, reseed);
        NameSearch(o.result, o.state, o.draws + 1)
  }

  /** One attempt of the search: a passing set ends it, a failing one hands over to the next attempt. */
  lemma SearchFromStep(state: Uint32, i: nat, patterns: seq<string>, tmpDir: Path,
                       fs: FileSystem, reseed: Clock)
    requires i < Attempts
    ensures var s := NextState(state, Reading(reseed, i));
            var files := Candidates(tmpDir, patterns, Token(s));
            var o := SearchFrom(state, i, patterns, tmpDir, fs, reseed);
            var rest := SearchFrom(s, i + 1, patterns, tmpDir, fs, reseed);
            && (AllValid(files, fs) ==> o.result == Ok(files) && o.state == s && o.draws == 1)
            && (!AllValid(files, fs) ==>
                  o.result == rest.result && o.state == rest.state && o.draws == rest.draws + 1)
  {
  }

  /** The search leaves the generator as many steps on as it drew tokens. */
  lemma {:induction false} SearchFromState(state: Uint32, i: nat, patterns: seq<string>, tmpDir: Path,
                                           fs: FileSystem, reseed: Clock)
    requires i <= Attempts
    ensures var o := SearchFrom(state, i, patterns, tmpDir, fs, reseed);
            o.state == StateAfter(state, reseed, i, o.draws)
    decreases Attempts - i
  {
    if i < Attempts {
      var s := NextState(state, Reading(reseed, i));
      if !AllValid(Candidates(tmpDir, patterns, Token(s)), fs) {
        SearchFromState(s, i + 1, patterns, tmpDir, fs, reseed);
      }
    }
  }

  /**
   * `getRandomTempFiles` as a function of the generator state, the temp
   * directory's stat result, the existence probe and the seeds: a failed
   * stat of the directory is returned at once without a draw; otherwise at
   * most `Attempts` tokens are drawn.
   */
  function TempFiles(state: Uint32, patterns: seq<string>, tmpDir: Path, dirStat: StatResult,
                     fs: FileSystem, reseed: Clock): (o: NameSearch)
    ensures !dirStat.Exists? ==> o == NameSearch(Err(dirStat.err), state, 0)
    ensures dirStat.Exists? ==> 1 <= o.draws <= Attempts
    ensures o.result.Ok? ==>
      && |o.result.value| == |patterns|
      && o.result.value == Candidates(tmpDir, patterns, Token(o.state))
      && AllValid(o.result.value, fs)
  {
    if !dirStat.Exists? then NameSearch(Err(dirStat.err), state, 0)
    else SearchFrom(state, 0, patterns, tmpDir, fs, reseed)
  }

  /** Adding one pattern adds its path at the end of the set. */
  lemma CandidatesExtend(tmpDir: Path, patterns: seq<string>, token: string, n: nat)
    requires n < |patterns|
    ensures Candidates(tmpDir, patterns[..n + 1], token)
         == Candidates(tmpDir, patterns[..n], token) + [Join(tmpDir, Substitute(patterns[n], token))]
  {
    assert patterns[..n + 1][..n] == patterns[..n];
  }

  /** A slice holding, slot by slot, each pattern's path is the candidate set. */
  lemma CandidatesFrom(tmpDir: Path, patterns: seq<string>, token: string, names: seq<Path>)
    requires |names| == |patterns|
    requires forall k :: 0 <= k < |names| ==> names[k] == Join(tmpDir, Substitute(patterns[k], token))
    ensures names == Candidates(tmpDir, patterns, token)
  {
    forall k | 0 <= k < |patterns|
      ensures names[k] == Candidates(tmpDir, patterns, token)[k]
    {
      CandidateAt(tmpDir, patterns, token, k);
    }
  }

  /** The inner loop of one attempt: a slice with one path per pattern, filled in pattern order. */
  method FillNames(tmpDir: Path, patterns: seq<string>, token: string) returns (names: seq<Path>)
    ensures names == Candidates(tmpDir, patterns, token)
  {
    var slots := new Path[|patterns|];
    for num := 0 to |patterns|
      invariant forall k :: 0 <= k < num ==> slots[k] == Join(tmpDir, Substitute(patterns[k], token))
    {
      slots[num] := Join(tmpDir, Substitute(patterns[num], token));
    }
    names := slots[..];
    CandidatesFrom(tmpDir, patterns, token, names);
  }

  /** `getRandomTempFiles`, with `tempDir()`'s stat result, the probe and the clock seeds as inputs. */
  method GetRandomTempFiles(g: Generator, patterns: seq<string>, tmpDir: Path, dirStat: StatResult,
                            fs: FileSystem, reseed: Clock)
    returns (files: Result<seq<Path>>)
    modifies g
    ensures files == TempFiles(old(g.state), patterns, tmpDir, dirStat, fs, reseed).result
    ensures g.state == TempFiles(old(g.state), patterns, tmpDir, dirStat, fs, reseed).state
  {
    if !dirStat.Exists? {
      return Err(dirStat.err);
    }
    ghost var goal := SearchFrom(g.state, 0, patterns, tmpDir, fs, reseed);
    for i := 0 to Attempts
      invariant SearchFrom(g.state, i, patterns, tmpDir, fs, reseed).result == goal.result
      invariant SearchFrom(g.state, i, patterns, tmpDir, fs, reseed).state == goal.state
    {
      ghost var before := g.state;
      var token := g.Next(Reading(reseed, i));
      var names := FillNames(tmpDir, patterns, token);
      var valid := FilesAreValid(names, fs);
      SearchFromStep(before, i, patterns, tmpDir, fs, reseed);
      if valid {
        return Ok(names);
      }
    }
    return Err(ErrExhausted);
  }
}
