/** The state of the MainCompo screen (components/MainCompo.tsx, lines 24-30) and
    the operations that change it: generatePassword (32-57), resetPassword
    (68-75) and the form's submit handler (82-87). Each React state variable is
    a field; each setter call is an assignment to it. */
module PasswordGenerator {
  import opened CharacterList
  import opened Sampling
  import opened PasswordSchema

  /** A password drawn from the alphabet of some flags holds only characters of
      the enabled classes. */
  lemma OnlyEnabledClasses(uppercase: bool, lowercase: bool, numbers: bool, symbols: bool,
                           random: seq<real>, c: char)
    requires IsRandomStream(random)
    requires c in Draws(BuildCharacterList(uppercase, lowercase, numbers, symbols), random)
    ensures Admits(uppercase, lowercase, numbers, symbols, c)
  {
    DrawsWithinAlphabet(BuildCharacterList(uppercase, lowercase, numbers, symbols), random);
    CharacterListMembership(uppercase, lowercase, numbers, symbols, c);
  }

  /** A length the schema accepts yields a password of that length, 4 to 16
      characters, unless every class is disabled, when it yields "". */
  lemma AcceptedLengthPassword(passwordLength: Option<int>,
                               uppercase: bool, lowercase: bool, numbers: bool, symbols: bool,
                               random: seq<real>)
    requires IsRandomStream(random) && |random| >= MaxLength
    requires ValidatePasswordLength(passwordLength).Accepted?
    ensures var n := passwordLength.value;
      var p := Draws(BuildCharacterList(uppercase, lowercase, numbers, symbols), random[..n]);
      (uppercase || lowercase || numbers || symbols ==> |p| == n && MinLength <= |p| <= MaxLength) &&
      (!uppercase && !lowercase && !numbers && !symbols ==> p == "")
  {
    var n := passwordLength.value;
    DrawsLength(BuildCharacterList(uppercase, lowercase, numbers, symbols), random[..n]);
  }

  class MainCompo {
    var password: string
    var isPasswordGenerated: bool
    var lowercase: bool
    var uppercase: bool
    var numbers: bool
    var symbols: bool

    /** The values the screen starts with and returns to on reset. */
    predicate IsInitial()
      reads this
    {
      password == "" && !isPasswordGenerated &&
      lowercase && !uppercase && numbers && symbols
    }

    /** The useState initialisers. */
    constructor ()
      ensures IsInitial()
    {
      password := "";
      isPasswordGenerated := false;
      lowercase := true;
      uppercase := false;
      numbers := true;
      symbols := true;
    }

    /** generatePassword: build the alphabet from the current flags, draw
        passwordLength characters from it, show the result. The flags are
        left as they were. */
    method GeneratePassword(passwordLength: int, random: seq<real>)
      requires IsRandomStream(random) && passwordLength <= |random|
      modifies this
      ensures password == Draws(BuildCharacterList(uppercase, lowercase, numbers, symbols),
                                random[..Max(passwordLength, 0)])
      ensures |password| == if !uppercase && !lowercase && !numbers && !symbols then 0
                            else Max(passwordLength, 0)
      ensures forall c :: c in password ==> Admits(uppercase, lowercase, numbers, symbols, c)
      ensures isPasswordGenerated
      ensures uppercase == old(uppercase) && lowercase == old(lowercase)
      ensures numbers == old(numbers) && symbols == old(symbols)
    {
      var characterList := "";
      if uppercase {
        characterList := characterList + UppercaseCharacters;
      }
      assert characterList == Part(uppercase, UppercaseCharacters);
      if lowercase {
        characterList := characterList + LowercaseCharacters;
      }
      assert characterList == Part(uppercase, UppercaseCharacters) + Part(lowercase, LowercaseCharacters);
      if numbers {
        characterList := characterList + NumberCharacters;
      }
      assert characterList == Part(uppercase, UppercaseCharacters) + Part(lowercase, LowercaseCharacters)
                              + Part(numbers, NumberCharacters);
      if symbols {
        characterList := characterList + SymbolCharacters;
      }
      assert characterList == BuildCharacterList(uppercase, lowercase, numbers, symbols);

      var result := CreatePassword(characterList, passwordLength, random);
      forall c | c in result
        ensures Admits(uppercase, lowercase, numbers, symbols, c)
      {
        OnlyEnabledClasses(uppercase, lowercase, numbers, symbols, random[..Max(passwordLength, 0)], c);
      }
      password := result;
      isPasswordGenerated := true;
    }

    /** resetPassword: every field back to its initial value, whatever the
        state before. */
    method ResetPassword()
      modifies this
      ensures IsInitial()
    {
      password := "";
      isPasswordGenerated := false;
      lowercase := true;
      uppercase := false;
      numbers := true;
      symbols := true;
    }

    /** The form's submit: the length field is validated against the schema, and
        only an accepted length reaches generatePassword; a rejected one leaves
        the screen as it was and reports the rule's message. */
    method Submit(passwordLength: Option<int>, random: seq<real>) returns (v: Validation)
      requires IsRandomStream(random) && MaxLength <= |random|
      modifies this
      ensures v == ValidatePasswordLength(passwordLength)
      ensures v.Rejected? ==> unchanged(this)
      ensures v.Accepted? ==>
        isPasswordGenerated &&
        password == Draws(BuildCharacterList(uppercase, lowercase, numbers, symbols), random[..v.length])
      ensures v.Accepted? ==>
        |password| == if !uppercase && !lowercase && !numbers && !symbols then 0 else v.length
      ensures v.Accepted? ==> forall c :: c in password ==> Admits(uppercase, lowercase, numbers, symbols, c)
      ensures uppercase == old(uppercase) && lowercase == old(lowercase)
      ensures numbers == old(numbers) && symbols == old(symbols)
    {
      v := ValidatePasswordLength(passwordLength);
      if v.Accepted? {
        GeneratePassword(v.length, random);
      }
    }
  }
}
