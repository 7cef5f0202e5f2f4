/**
 * The operator registration form: three text fields checked in order on
 * submit, the first failing check naming the problem.
 */
module Registration {
  import opened Wrappers

  const NameRequired := "Operator name is required"
  const AddressRequired := "Valid Ethereum address is required"
  const MetadataRequired := "Metadata URI is required"

  function RegisteredMessage(name: string): string {
    "Successfully registered " + name + " as an operator!"
  }

  // ------------------------------------------------------------ String.prototype.trim

  /** The characters `trim` removes: ECMAScript white space and line terminators. */
  predicate IsSpace(c: char) {
    var n := c as int;
    (9 <= n <= 13) || n == 32 || n == 0xA0 || n == 0x1680 || (0x2000 <= n <= 0x200A) ||
    n == 0x2028 || n == 0x2029 || n == 0x202F || n == 0x205F || n == 0x3000 || n == 0xFEFF
  }

  predicate AllSpace(s: string) {
    forall i :: 0 <= i < |s| ==> IsSpace(s[i])
  }

  /** Drops the white space at the left end. */
  function TrimStart(s: string): (r: string)
    ensures r == [] || !IsSpace(r[0])
  {
    if s != [] && IsSpace(s[0]) then TrimStart(s[1..]) else s
  }

  /** Drops the white space at the right end. */
  function TrimEnd(s: string): (r: string)
    ensures r == [] || !IsSpace(r[|r| - 1])
  {
    if s != [] && IsSpace(s[|s| - 1]) then TrimEnd(s[..|s| - 1]) else s
  }

  /** `s.trim()`. */
  function Trim(s: string): string {
    TrimEnd(TrimStart(s))
  }

  /** `TrimStart` removes a run of white space from the front and nothing else. */
  lemma {:induction false} TrimStartSuffix(s: string)
    ensures |TrimStart(s)| <= |s|
    ensures var k := |s| - |TrimStart(s)|; TrimStart(s) == s[k..] && AllSpace(s[..k])
  {
    if s != [] && IsSpace(s[0]) {
      TrimStartSuffix(s[1..]);
      var k := |s| - |TrimStart(s)|;
      assert s[1..][k - 1..] == s[k..];
      forall i | 0 <= i < k
        ensures IsSpace(s[..k][i])
      {
        if i == 0 {
          assert s[..k][i] == s[0];
        } else {
          assert s[..k][i] == s[1..][..k - 1][i - 1];
        }
      }
    } else {
      assert s[0..] == s;
    }
  }

  /** `TrimEnd` removes a run of white space from the back and nothing else. */
  lemma {:induction false} TrimEndPrefix(s: string)
    ensures |TrimEnd(s)| <= |s|
    ensures var k := |TrimEnd(s)|; TrimEnd(s) == s[..k] && AllSpace(s[k..])
  {
    if s != [] && IsSpace(s[|s| - 1]) {
      var u := s[..|s| - 1];
      TrimEndPrefix(u);
      var k := |TrimEnd(s)|;
      assert u[..k] == s[..k];
      forall i | 0 <= i < |s| - k
        ensures IsSpace(s[k..][i])
      {
        if i < |s| - 1 - k {
          assert s[k..][i] == u[k..][i];
        }
      }
    } else {
      assert s[..|s|] == s;
    }
  }

  lemma {:induction false} TrimStartAllSpace(s: string)
    ensures TrimStart(s) == [] <==> AllSpace(s)
  {
    if s != [] && IsSpace(s[0]) {
      TrimStartAllSpace(s[1..]);
      assert AllSpace(s) <==> AllSpace(s[1..]) by {
        if AllSpace(s[1..]) {
          forall i | 0 <= i < |s| ensures IsSpace(s[i]) {
            if i > 0 { assert s[i] == s[1..][i - 1]; }
          }
        }
      }
    }
  }

  lemma {:induction false} TrimEndKeepsNonSpace(s: string)
    requires s != [] && !IsSpace(s[0])
    ensures TrimEnd(s) != []
  {
    if IsSpace(s[|s| - 1]) {
      TrimEndKeepsNonSpace(s[..|s| - 1]);
    }
  }

  /** A field is blank (`!field.trim()`) exactly when every character is white space. */
  lemma BlankIff(s: string)
    ensures Trim(s) == "" <==> AllSpace(s)
  {
    TrimStartAllSpace(s);
    if TrimStart(s) != [] {
      TrimEndKeepsNonSpace(TrimStart(s));
    }
  }

  /** `!s.trim()`. */
  predicate Blank(s: string) {
    Trim(s) == ""
  }

  predicate StartsWith(s: string, prefix: string) {
    |prefix| <= |s| && s[..|prefix|] == prefix
  }

  // ------------------------------------------------------------ form

  datatype FormData = FormData(name: string, operatorAddress: string, metadataURI: string)

  const EmptyForm := FormData("", "", "")

  /** The input's `name` attribute. */
  datatype Field = Name | OperatorAddress | MetadataURI

  function Get(f: FormData, field: Field): string {
    match field
    case Name => f.name
    case OperatorAddress => f.operatorAddress
    case MetadataURI => f.metadataURI
  }

  /** `{ ...prev, [name]: value }`: the named field takes the value, the others keep theirs. */
  function WithField(f: FormData, field: Field, value: string): (r: FormData)
    ensures Get(r, field) == value
    ensures forall other :: other != field ==> Get(r, other) == Get(f, other)
  {
    match field
    case Name => f.(name := value)
    case OperatorAddress => f.(operatorAddress := value)
    case MetadataURI => f.(metadataURI := value)
  }

  /** The message of the first check the form fails, in the order the checks run. */
  function FirstFailure(f: FormData): Option<string> {
    if Blank(f.name) then Some(NameRequired)
    else if Blank(f.operatorAddress) || !StartsWith(f.operatorAddress, "0x") then Some(AddressRequired)
    else if Blank(f.metadataURI) then Some(MetadataRequired)
    else None
  }

  /**
   * The address check only needs the prefix: text starting with "0x" is never
   * blank, so the trim test adds nothing.
   */
  lemma AddressCheckIsPrefix(address: string)
    ensures (Blank(address) || !StartsWith(address, "0x")) <==> !StartsWith(address, "0x")
  {
    if StartsWith(address, "0x") {
      BlankIff(address);
      assert !IsSpace(address[0]);
    }
  }

  /**
   * The checks in terms of the characters: a white-space name is reported
   * first, whatever the other fields hold; then an address without the "0x"
   * prefix; then a white-space metadata URI; a form passing all three is accepted.
   */
  lemma FirstFailureOrder(f: FormData)
    ensures FirstFailure(f) == Some(NameRequired) <==> AllSpace(f.name)
    ensures FirstFailure(f) == Some(AddressRequired) <==> !AllSpace(f.name) && !StartsWith(f.operatorAddress, "0x")
    ensures FirstFailure(f) == Some(MetadataRequired) <==>
      !AllSpace(f.name) && StartsWith(f.operatorAddress, "0x") && AllSpace(f.metadataURI)
    ensures FirstFailure(f) == None <==>
      !AllSpace(f.name) && StartsWith(f.operatorAddress, "0x") && !AllSpace(f.metadataURI)
  {
    BlankIff(f.name);
    BlankIff(f.metadataURI);
    AddressCheckIsPrefix(f.operatorAddress);
  }

  class RegistrationForm {
    var formData: FormData
    var isSubmitting: bool
    var error: string
    var success: string

    constructor ()
      ensures formData == EmptyForm && !isSubmitting && error == "" && success == ""
    {
      formData := EmptyForm;
      isSubmitting := false;
      error := "";
      success := "";
    }

    /** `handleChange`: only the named field changes. */
    method HandleChange(field: Field, value: string)
      modifies this`formData
      ensures formData == WithField(old(formData), field, value)
    {
      match field
      case Name => formData := formData.(name := value);
      case OperatorAddress => formData := formData.(operatorAddress := value);
      case MetadataURI => formData := formData.(metadataURI := value);
    }

    /**
     * `handleSubmit`: submitting starts and both messages are cleared; the
     * three checks run in order and the first failure ends the submission with
     * its message and the form as it was; otherwise the operator is
     * registered, named in the success message, and the form is emptied.
     * Either way the submission has ended on return.
     */
    method HandleSubmit()
      modifies this
      ensures !isSubmitting
      ensures FirstFailure(old(formData)).Some? ==>
        error == FirstFailure(old(formData)).value && success == "" && formData == old(formData)
      ensures FirstFailure(old(formData)).None? ==>
        error == "" && success == RegisteredMessage(old(formData.name)) && formData == EmptyForm
    {
      isSubmitting := true;
      error := "";
      success := "";
      if Blank(formData.name) {
        error := NameRequired;
        isSubmitting := false;
        return;
      }
      if Blank(formData.operatorAddress) || !StartsWith(formData.operatorAddress, "0x") {
        error := AddressRequired;
        isSubmitting := false;
        return;
      }
      if Blank(formData.metadataURI) {
        error := MetadataRequired;
        isSubmitting := false;
        return;
      }
      success := RegisteredMessage(formData.name);
      formData := EmptyForm;
      isSubmitting := false;
    }
  }
}
