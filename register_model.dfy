/** RegisterModel: the body of POST register, and the validity that the
    data-annotation attributes give it (what ModelState.IsValid reports once
    the model is bound). A property left out of the JSON body is null. */
module RegisterModel {
  import opened Wrappers
  import Text

  datatype RegisterModel = RegisterModel(
    functionalName: Option<string>,
    email: Option<string>,
    password: Option<string>,
    confirmEmailUrl: Option<string>)

  /** [Required] with AllowEmptyStrings false: null, empty and white-space
      only strings fail. */
  predicate Required(v: Option<string>) {
    !Text.IsBlank(v)
  }

  /** [StringLength(max, MinimumLength = min)]: null passes; otherwise the
      length in UTF-16 code units (string.Length) must lie in [min, max]. */
  predicate StringLength(v: Option<string>, min: nat, max: nat) {
    v.None? || min <= Text.Utf16Length(v.value) <= max
  }

  /** [EmailAddress]: null passes; otherwise the first '@' must be the last
      one, and be neither the first nor the last character. */
  predicate EmailAddress(v: Option<string>) {
    v.None? ||
    var s := v.value;
    var at := Text.IndexOf(s, '@');
    at > 0 && at != |s| - 1 && at == Text.LastIndexOf(s, '@')
  }

  /** ModelState.IsValid: FunctionalName is [Required] and
      [StringLength(20, MinimumLength = 3)]; Email is [Required] and
      [EmailAddress]; Password and ConfirmEmailUrl carry no validation. */
  predicate IsValid(m: RegisterModel) {
    Required(m.functionalName) && StringLength(m.functionalName, 3, 20) &&
    Required(m.email) && EmailAddress(m.email)
  }

  /** s holds exactly one '@', at index k, and it is neither first nor last. */
  predicate SingleInnerAt(s: string, k: int) {
    0 < k < |s| - 1 && s[k] == '@' &&
    forall j :: 0 <= j < |s| && s[j] == '@' ==> j == k
  }

  /** An address passing [EmailAddress] has a single inner '@'. */
  lemma EmailAddressSingleAt(s: string)
    requires EmailAddress(Some(s))
    ensures SingleInnerAt(s, Text.IndexOf(s, '@'))
  {
  }

  /** Every address with a single inner '@' passes [EmailAddress]. */
  lemma SingleAtEmailAddress(s: string, k: int)
    requires SingleInnerAt(s, k)
    ensures EmailAddress(Some(s))
  {
  }

  /** A valid model names a non-blank functional name of 3 to 20 UTF-16
      code units and a non-blank email with a single inner '@'. */
  lemma ValidModel(m: RegisterModel)
    requires IsValid(m)
    ensures m.functionalName.Some? && !Text.AllWhiteSpace(m.functionalName.value)
    ensures 3 <= Text.Utf16Length(m.functionalName.value) <= 20
    ensures m.email.Some? && !Text.AllWhiteSpace(m.email.value)
    ensures SingleInnerAt(m.email.value, Text.IndexOf(m.email.value, '@'))
  {
    EmailAddressSingleAt(m.email.value);
  }

  /** For a functional name made of Basic Multilingual Plane characters the
      length rule counts characters. */
  lemma FunctionalNameLength(m: RegisterModel, name: string)
    requires m.functionalName == Some(name)
    requires forall i :: 0 <= i < |name| ==> name[i] as int < 0x10000
    ensures StringLength(m.functionalName, 3, 20) <==> 3 <= |name| <= 20
  {
    Text.Utf16LengthOfBmp(name);
  }

  /** A model is valid exactly when its two validated properties are: the
      password and the confirmation URL never affect validity. */
  lemma PasswordAndUrlUnvalidated(m: RegisterModel, password: Option<string>, url: Option<string>)
    ensures IsValid(m.(password := password, confirmEmailUrl := url)) == IsValid(m)
  {
  }

  /** A missing or blank functional name or email invalidates the model. */
  lemma BlankRequiredInvalid(m: RegisterModel)
    requires Text.IsBlank(m.functionalName) || Text.IsBlank(m.email)
    ensures !IsValid(m)
  {
  }
}
