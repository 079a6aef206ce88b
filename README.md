# Password generator engine

A Dafny model of the password engine of the `MainCompo` screen of a React
Native password generator (`components/MainCompo.tsx`). The screen keeps six
pieces of state: the generated `password`, whether one `isPasswordGenerated`,
and four checkbox flags `lowercase`, `uppercase`, `numbers`, `symbols`. A form
validates the requested password length against a yup schema and, when it
passes, calls `generatePassword`. That builds an alphabet from the enabled
character classes and samples the password from it with `createPassword`.
`resetPassword` restores the initial state.

The model has four modules, one per part of the engine:

- `CharacterList` (`character_list.dfy`): the four class strings and the
  alphabet they form (`BuildCharacterList`). It proves the alphabet's exact
  length, its membership (a character is in it exactly when its class is
  enabled), and the fixed order of the classes in it. Each letter or digit
  literal is also proved to hold exactly the characters of its code point
  range.
- `Sampling` (`create_password.dfy`): `createPassword` as a method with its
  `for` loop. `Math.random()` becomes a parameter: the sequence of values it
  returns, each a real in [0, 1). The index is `Floor(r * characters.length)`,
  as in the source, and `charAt` yields `""` out of range. `Draws` is the
  specification function the loop is proved against.
- `PasswordSchema` (`password_schema.dfy`): the length rules as an ordered
  chain over an optional integer. A missing value is "required", then the
  minimum 4, then the maximum 16, each with its own message.
- `PasswordGenerator` (`main_compo.dfy`): the class `MainCompo` with the six
  state fields. It has `GeneratePassword`, `ResetPassword` and the form's
  `Submit`, which validates and then generates.

Behaviour with every class disabled follows the code. The alphabet is empty.
Every `charAt` then yields `""`, so the password is `""`, and it is still
marked as generated. The code has no guard for this case and reports no
error; the model keeps that behaviour, and `AcceptedLengthPassword`,
`Sampling.DrawsLength` and `MainCompo.Submit` state the `""` outcome.

## Model

| member | source | states |
|---|---|---|
| CharacterList.BuildCharacterList | components/MainCompo.tsx:34-51 | the alphabet has 26·[uppercase] + 26·[lowercase] + 10·[numbers] + 12·[symbols] characters, and it is empty iff all four flags are off |
| CharacterList.UppercaseMembership | components/MainCompo.tsx:35 | the uppercase string holds exactly the characters 'A'..'Z' |
| CharacterList.LowercaseMembership | components/MainCompo.tsx:36 | the lowercase string holds exactly the characters 'a'..'z' |
| CharacterList.NumberMembership | components/MainCompo.tsx:37 | the number string holds exactly the characters '0'..'9' |
| CharacterList.CharacterListMembership | components/MainCompo.tsx:40-51 | a character is in the alphabet iff its class's flag is on (upper range, lower range, digit range, or the symbol string) |
| CharacterList.DisabledClassAbsent | components/MainCompo.tsx:40-51 | no character of a disabled class is in the alphabet |
| CharacterList.CharacterListOrder | components/MainCompo.tsx:40-51 | classes appear in the alphabet in the order uppercase, lowercase, numbers, symbols: for positions i <= j the class of character i does not come after that of character j |
| Sampling.Index | components/MainCompo.tsx:62 | Math.floor(r * length) with r in [0, 1) lies in [0, length) for a non-empty alphabet, and is 0 for an empty one |
| Sampling.DrawsLength | components/MainCompo.tsx:60-65 | one character per draw, and none at all from an empty alphabet |
| Sampling.DrawsAt | components/MainCompo.tsx:61-63 | character k of the result is the alphabet character at the index the k-th draw selects |
| Sampling.DrawsWithinAlphabet | components/MainCompo.tsx:62-63 | every character of the result is a character of the alphabet |
| Sampling.CreatePassword | components/MainCompo.tsx:59-66 | the loop returns the string the first max(passwordLength, 0) draws select; it has exactly that many characters, 0 when the alphabet is empty, and only alphabet characters |
| PasswordSchema.ValidatePasswordLength | components/MainCompo.tsx:16-22 | a length is accepted iff present and 4 <= n <= 16; missing gives "Password length is required", below 4 the too-short message, above 16 the too-long message |
| PasswordSchema.RejectionIdentifiesRule | components/MainCompo.tsx:19-21 | each rejection message is given exactly when its own rule fails, so the message identifies the rule |
| PasswordGenerator.OnlyEnabledClasses | components/MainCompo.tsx:40-53 | every character of a password generated under some flags belongs to an enabled class |
| PasswordGenerator.AcceptedLengthPassword | components/MainCompo.tsx:84-87 | a length the schema accepts yields a password of exactly that length, between 4 and 16, when some class is on, and "" when none is |
| PasswordGenerator.MainCompo.constructor | components/MainCompo.tsx:24-30 | the initial state: password "", not generated, lowercase on, uppercase off, numbers on, symbols on |
| PasswordGenerator.MainCompo.GeneratePassword | components/MainCompo.tsx:32-57 | afterwards the password is the sample drawn from the alphabet of the current flags, with its length and class guarantees; isPasswordGenerated is true; the four flags are unchanged |
| PasswordGenerator.MainCompo.ResetPassword | components/MainCompo.tsx:68-75 | from any state, every field returns to its initial value, so reset matches the constructor and applying it twice equals applying it once |
| PasswordGenerator.MainCompo.Submit | components/MainCompo.tsx:82-87 | the result is the schema's verdict; a rejected length changes nothing; an accepted one sets the password to the draws from the current flags' alphabet, of exactly that length when some class is on and "" when none is, holding only characters of enabled classes, and marks it generated |

## Left out

- Randomness: `Math.random()` is a caller-supplied sequence of draws. The model makes no claim about uniformity, probability, or repeated characters.
- Floating point: draws and products are exact reals. IEEE-754 rounding of `Math.random() * characters.length` is not modelled.
- Non-integer lengths: the length is an integer. The schema uses `number()` without `integer()`, so a length like 4.5 would pass, and the loop would then run 5 times. This is not modelled.
- Text-to-number conversion of the form field is not modelled. Formik and yup cast the text, and empty or non-numeric input is their behaviour. The validator takes an already-parsed optional integer.
- Which error Formik shows first: at most one of the three rules can fail for a given value, so the order of the chain does not change the result.
- Checkbox toggles (`onPress` handlers), the `disabled={!isValid}` button wiring, Formik's own `handleReset`, all JSX rendering and the `styles` object are presentation. The flag fields are public, so a client can set them as the checkboxes do.
- React hook mechanics (`useState` batching, `useCallback` dependency arrays) only decide when the screen re-renders.
- `App.tsx` only nests the screen in views and is not part of this model.
