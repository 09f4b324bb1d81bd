/** The profile page: the password form's validator chain and reset, the profile form's
    validation, and the one-time filling of the profile form from the loaded user. */
module ProfilePage {
  import opened Common

  /** The outcome of the password form's checks, in the order they are made. */
  datatype PasswordCheck =
    | SemuaFieldHarusDiisi   // "Semua field password harus diisi"
    | TidakCocok             // "Password baru dan konfirmasi tidak cocok"
    | MinimalEnamKarakter    // "Password baru minimal 6 karakter"
    | PasswordValid

  const MinPasswordLength: int := 6

  /** handlePasswordSubmit's checks: an empty field, then a mismatch, then a short password. */
  function ValidatePassword(oldPass: string, newPass: string, confirmPass: string): (c: PasswordCheck)
    ensures c == PasswordValid <==>
              oldPass != "" && newPass != "" && confirmPass != "" &&
              newPass == confirmPass && |newPass| >= MinPasswordLength
    ensures c == SemuaFieldHarusDiisi <==> oldPass == "" || newPass == "" || confirmPass == ""
    ensures c == TidakCocok <==>
              oldPass != "" && newPass != "" && confirmPass != "" && newPass != confirmPass
    ensures c == MinimalEnamKarakter <==>
              oldPass != "" && newPass != "" && confirmPass != "" &&
              newPass == confirmPass && |newPass| < MinPasswordLength
  {
    if oldPass == "" || newPass == "" || confirmPass == "" then SemuaFieldHarusDiisi
    else if newPass != confirmPass then TidakCocok
    else if |newPass| < MinPasswordLength then MinimalEnamKarakter
    else PasswordValid
  }

  /** The variables of the changePassword mutation. */
  datatype ChangePasswordRequest = ChangePasswordRequest(oldPass: string, newPass: string)

  /** handleProfileSubmit's check: neither nama nor email is empty after trimming. */
  function ProfileFormValid(nama: string, email: string): (b: bool)
    ensures b <==> !AllWhitespace(nama) && !AllWhitespace(email)
  {
    BlankIffAllWhitespace(nama);
    BlankIffAllWhitespace(email);
    !IsBlank(nama) && !IsBlank(email)
  }

  /** The variables of the updateProfile mutation. */
  datatype UpdateProfileRequest = UpdateProfileRequest(nama: string, email: string)

  /** The `me` object of the loaded user, each field possibly missing. */
  datatype Me = Me(nama: Option<string>, email: Option<string>)

  /** `x || ''` */
  function OrEmpty(s: Option<string>): string
  {
    if s.Some? then s.value else ""
  }

  /** The form state after a render: filled from `me` while the name field is empty. */
  function Initialized(nama: string, email: string, me: Option<Me>): (r: (string, string))
    ensures me.Some? && nama == "" ==> r == (OrEmpty(me.value.nama), OrEmpty(me.value.email))
    ensures me.None? || nama != "" ==> r == (nama, email)
  {
    if me.Some? && nama == "" then (OrEmpty(me.value.nama), OrEmpty(me.value.email)) else (nama, email)
  }

  /** Once the name field holds something, later renders never overwrite the form, whatever
      user data arrives. */
  lemma InitializedOnce(nama: string, email: string, me: Option<Me>, later: Option<Me>)
    requires Initialized(nama, email, me).0 != ""
    ensures var (n, e) := Initialized(nama, email, me);
            Initialized(n, e, later) == (n, e)
  {
  }

  /** The state of the profile page's two forms. */
  class ProfileForms {
    var nama: string
    var email: string
    var oldPass: string
    var newPass: string
    var confirmPass: string

    constructor ()
      ensures nama == "" && email == "" && oldPass == "" && newPass == "" && confirmPass == ""
    {
      nama, email := "", "";
      oldPass, newPass, confirmPass := "", "", "";
    }

    /** The initialisation made on each render. */
    method InitFromUser(me: Option<Me>)
      modifies this`nama, this`email
      ensures (nama, email) == Initialized(old(nama), old(email), me)
    {
      if me.Some? && nama == "" {
        nama := OrEmpty(me.value.nama);
        email := OrEmpty(me.value.email);
      }
    }

    /** handlePasswordSubmit, with the mutation's outcome passed in. The mutation is asked
        for only when every check passes, and the three fields are cleared only when it
        succeeds. */
    method HandlePasswordSubmit(mutation: Outcome<()>) returns (check: PasswordCheck, request: Option<ChangePasswordRequest>)
      modifies this`oldPass, this`newPass, this`confirmPass
      ensures check == ValidatePassword(old(oldPass), old(newPass), old(confirmPass))
      ensures request.Some? <==> check == PasswordValid
      ensures request.Some? ==> request.value == ChangePasswordRequest(old(oldPass), old(newPass))
      ensures request.Some? && mutation.Ok? ==> oldPass == "" && newPass == "" && confirmPass == ""
      ensures request.None? || mutation.Err? ==>
                oldPass == old(oldPass) && newPass == old(newPass) && confirmPass == old(confirmPass)
    {
      check := ValidatePassword(oldPass, newPass, confirmPass);
      if check != PasswordValid {
        return check, None;
      }
      request := Some(ChangePasswordRequest(oldPass, newPass));
      if mutation.Ok? {
        oldPass, newPass, confirmPass := "", "", "";
      }
    }

    /** handleProfileSubmit: asks for the update with the untrimmed fields, only when both
        are non-blank. */
    method HandleProfileSubmit() returns (request: Option<UpdateProfileRequest>)
      ensures request.Some? <==> ProfileFormValid(nama, email)
      ensures request.Some? ==> request.value == UpdateProfileRequest(nama, email)
    {
      if IsBlank(nama) || IsBlank(email) {
        return None;
      }
      request := Some(UpdateProfileRequest(nama, email));
    }
  }
}
