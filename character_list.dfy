/** The alphabet that generatePassword builds from the four checkbox flags
    (components/MainCompo.tsx, lines 34-51): the enabled class strings are
    appended in the fixed order uppercase, lowercase, numbers, symbols. */
module CharacterList {

  const UppercaseCharacters: string := "ABCDEFGHIJKLMNOPQRSTUVWXYZ"
  const LowercaseCharacters: string := "abcdefghijklmnopqrstuvwxyz"
  const NumberCharacters: string := "0123456789"
  const SymbolCharacters: string := "!@#$%^&*()_+"

  /** Descriptions of the letter and digit classes by code point range,
      independent of the literals above. */
  predicate IsUpper(c: char) { 'A' <= c <= 'Z' }
  predicate IsLower(c: char) { 'a' <= c <= 'z' }
  predicate IsDigit(c: char) { '0' <= c <= '9' }

  /** The characters a given flag setting admits, class by class. */
  predicate Admits(uppercase: bool, lowercase: bool, numbers: bool, symbols: bool, c: char)
  {
    (uppercase && IsUpper(c)) || (lowercase && IsLower(c)) ||
    (numbers && IsDigit(c)) || (symbols && c in SymbolCharacters)
  }

  function Count(flag: bool, size: nat): nat { if flag then size else 0 }

  /** What one class adds to the alphabet: its string when enabled, else nothing. */
  function Part(flag: bool, characters: string): string { if flag then characters else "" }

  /** The alphabet for one generation: the enabled class strings, concatenated
      in the order the source appends them. */
  function BuildCharacterList(uppercase: bool, lowercase: bool, numbers: bool, symbols: bool): (r: string)
    ensures |r| == Count(uppercase, 26) + Count(lowercase, 26) + Count(numbers, 10) + Count(symbols, 12)
    ensures r == [] <==> !uppercase && !lowercase && !numbers && !symbols
  {
    Part(uppercase, UppercaseCharacters) + Part(lowercase, LowercaseCharacters) +
    Part(numbers, NumberCharacters) + Part(symbols, SymbolCharacters)
  }

  /** Each literal class string holds exactly the characters of its range. */
  lemma UppercaseMembership(c: char)
    ensures c in UppercaseCharacters <==> IsUpper(c)
  {
  }

  lemma LowercaseMembership(c: char)
    ensures c in LowercaseCharacters <==> IsLower(c)
  {
  }

  lemma NumberMembership(c: char)
    ensures c in NumberCharacters <==> IsDigit(c)
  {
  }

  /** No character belongs to two classes. */
  lemma ClassesDisjoint(c: char)
    ensures IsUpper(c) ==> !IsLower(c) && !IsDigit(c) && c !in SymbolCharacters
    ensures IsLower(c) ==> !IsDigit(c) && c !in SymbolCharacters
    ensures IsDigit(c) ==> c !in SymbolCharacters
  {
  }

  /** A character is in the alphabet exactly when its class is enabled. */
  lemma CharacterListMembership(uppercase: bool, lowercase: bool, numbers: bool, symbols: bool, c: char)
    ensures c in BuildCharacterList(uppercase, lowercase, numbers, symbols)
        <==> Admits(uppercase, lowercase, numbers, symbols, c)
  {
    UppercaseMembership(c);
    LowercaseMembership(c);
    NumberMembership(c);
  }

  /** A disabled class contributes nothing: none of its characters is in the alphabet. */
  lemma DisabledClassAbsent(uppercase: bool, lowercase: bool, numbers: bool, symbols: bool, c: char)
    ensures !uppercase && IsUpper(c) ==> c !in BuildCharacterList(uppercase, lowercase, numbers, symbols)
    ensures !lowercase && IsLower(c) ==> c !in BuildCharacterList(uppercase, lowercase, numbers, symbols)
    ensures !numbers && IsDigit(c) ==> c !in BuildCharacterList(uppercase, lowercase, numbers, symbols)
    ensures !symbols && c in SymbolCharacters ==> c !in BuildCharacterList(uppercase, lowercase, numbers, symbols)
  {
    CharacterListMembership(uppercase, lowercase, numbers, symbols, c);
    ClassesDisjoint(c);
  }

  /** The position of a character's class in the order the source appends
      the classes: uppercase, lowercase, numbers, symbols. */
  function ClassRank(c: char): nat
  {
    if IsUpper(c) then 0 else if IsLower(c) then 1 else if IsDigit(c) then 2 else 3
  }

  /** The class an alphabet position falls in, from the sizes of the enabled
      classes before it. */
  function RankAt(uppercase: bool, lowercase: bool, numbers: bool, k: int): nat
  {
    if k < Count(uppercase, 26) then 0
    else if k < Count(uppercase, 26) + Count(lowercase, 26) then 1
    else if k < Count(uppercase, 26) + Count(lowercase, 26) + Count(numbers, 10) then 2
    else 3
  }

  lemma ClassStringRanks(c: char)
    ensures c in UppercaseCharacters ==> ClassRank(c) == 0
    ensures c in LowercaseCharacters ==> ClassRank(c) == 1
    ensures c in NumberCharacters ==> ClassRank(c) == 2
    ensures c in SymbolCharacters ==> ClassRank(c) == 3
  {
    UppercaseMembership(c);
    LowercaseMembership(c);
    NumberMembership(c);
    ClassesDisjoint(c);
  }

  /** Concatenated blocks whose characters have ranks 0, 1, 2 and 3 in turn. */
  lemma BlocksRank(a: string, b: string, d: string, e: string, k: nat)
    requires k < |a + b + d + e|
    requires forall c :: c in a ==> ClassRank(c) == 0
    requires forall c :: c in b ==> ClassRank(c) == 1
    requires forall c :: c in d ==> ClassRank(c) == 2
    requires forall c :: c in e ==> ClassRank(c) == 3
    ensures ClassRank((a + b + d + e)[k])
         == if k < |a| then 0 else if k < |a| + |b| then 1 else if k < |a| + |b| + |d| then 2 else 3
  {
    var r := a + b + d + e;
    if k < |a| {
      assert r[k] in a;
    } else if k < |a| + |b| {
      assert r[k] == b[k - |a|];
    } else if k < |a| + |b| + |d| {
      assert r[k] == d[k - |a| - |b|];
    } else {
      assert r[k] == e[k - |a| - |b| - |d|];
    }
  }

  lemma PositionRank(uppercase: bool, lowercase: bool, numbers: bool, symbols: bool, k: nat)
    requires k < |BuildCharacterList(uppercase, lowercase, numbers, symbols)|
    ensures ClassRank(BuildCharacterList(uppercase, lowercase, numbers, symbols)[k])
         == RankAt(uppercase, lowercase, numbers, k)
  {
    forall c
      ensures c in UppercaseCharacters ==> ClassRank(c) == 0
      ensures c in LowercaseCharacters ==> ClassRank(c) == 1
      ensures c in NumberCharacters ==> ClassRank(c) == 2
      ensures c in SymbolCharacters ==> ClassRank(c) == 3
    {
      ClassStringRanks(c);
    }
    BlocksRank(Part(uppercase, UppercaseCharacters), Part(lowercase, LowercaseCharacters),
               Part(numbers, NumberCharacters), Part(symbols, SymbolCharacters), k);
  }

  /** The enabled classes appear in the alphabet as whole blocks, in the order
      uppercase, lowercase, numbers, symbols: no character of a later class
      comes before one of an earlier class. */
  lemma CharacterListOrder(uppercase: bool, lowercase: bool, numbers: bool, symbols: bool, i: nat, j: nat)
    requires i <= j < |BuildCharacterList(uppercase, lowercase, numbers, symbols)|
    ensures ClassRank(BuildCharacterList(uppercase, lowercase, numbers, symbols)[i])
         <= ClassRank(BuildCharacterList(uppercase, lowercase, numbers, symbols)[j])
  {
    PositionRank(uppercase, lowercase, numbers, symbols, i);
    PositionRank(uppercase, lowercase, numbers, symbols, j);
  }
}
