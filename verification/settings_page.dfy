/**
 * The settings page: the profile, password and notification forms, and
 * the handlers behind them. A handler's request is recorded in the page's
 * request log, and whether the server accepted it is an input.
 */
module SettingsPage {
  import opened Wrappers
  import opened Schema
  import I18n

  // ---------------------------------------------------------------------
  // The forms

  datatype ProfileFormValues = ProfileFormValues(firstName: string, lastName: string, email: string, phone: Option<string>)

  /** profileFormSchema: both names non-empty and a well-formed e-mail; the phone is optional. */
  predicate ProfileFormOk(v: ProfileFormValues, isEmail: string -> bool)
  {
    |v.firstName| >= 1 && |v.lastName| >= 1 && isEmail(v.email)
  }

  /** The profile form starts from the user's own details, "" where there are none. */
  function ProfileDefaults(user: Option<User>): (v: ProfileFormValues)
    ensures user.None? ==> v == ProfileFormValues("", "", "", Some(""))
    ensures user.Some? ==> v.firstName == user.value.firstName && v.lastName == user.value.lastName && v.email == user.value.email
  {
    match user
    case None => ProfileFormValues("", "", "", Some(""))
    case Some(u) => ProfileFormValues(u.firstName, u.lastName, u.email, Some(u.phone.GetOr("")))
  }

  /** Resubmitting one's own profile unchanged passes exactly when the stored names are non-empty and the e-mail well formed. */
  lemma OwnProfileOk(u: User, isEmail: string -> bool)
    ensures ProfileFormOk(ProfileDefaults(Some(u)), isEmail) <==> |u.firstName| >= 1 && |u.lastName| >= 1 && isEmail(u.email)
  {
  }

  datatype PasswordFormValues = PasswordFormValues(currentPassword: string, newPassword: string, confirmPassword: string)

  /** A validation message and the field it is shown on. */
  datatype Issue = Issue(path: string, message: string)

  /**
   * passwordFormSchema's messages, field checks first. The equality
   * refinement still runs when a length check has failed (those failures
   * do not abort the object), and its message goes on confirmPassword.
   */
  function PasswordIssues(v: PasswordFormValues): (issues: seq<Issue>)
    ensures (issues == []) <==>
      |v.currentPassword| >= 1 && |v.newPassword| >= 8 && |v.confirmPassword| >= 1 && v.newPassword == v.confirmPassword
    ensures (Issue("confirmPassword", "Passwords do not match") in issues) <==> v.newPassword != v.confirmPassword
  {
    (if |v.currentPassword| < 1 then [Issue("currentPassword", "Current password is required")] else []) +
    (if |v.newPassword| < 8 then [Issue("newPassword", "Password must be at least 8 characters")] else []) +
    (if |v.confirmPassword| < 1 then [Issue("confirmPassword", "Please confirm your password")] else []) +
    (if v.newPassword != v.confirmPassword then [Issue("confirmPassword", "Passwords do not match")] else [])
  }

  /** A valid new password always has at least eight characters, and so does its confirmation. */
  lemma ValidPasswordLength(v: PasswordFormValues)
    requires PasswordIssues(v) == []
    ensures |v.confirmPassword| >= 8
  {
  }

  datatype NotificationFormValues = NotificationFormValues(
    emailNotifications: bool, projectUpdates: bool, taskAssignments: bool, invoiceReminders: bool)

  /** notificationFormSchema with its defaults: a switch left unset reads as on. */
  function NotificationValues(emailNotifications: Option<bool>, projectUpdates: Option<bool>,
                              taskAssignments: Option<bool>, invoiceReminders: Option<bool>): (v: NotificationFormValues)
    ensures v.emailNotifications <==> emailNotifications != Some(false)
    ensures v.projectUpdates <==> projectUpdates != Some(false)
    ensures v.taskAssignments <==> taskAssignments != Some(false)
    ensures v.invoiceReminders <==> invoiceReminders != Some(false)
  {
    NotificationFormValues(
      emailNotifications.GetOr(true), projectUpdates.GetOr(true),
      taskAssignments.GetOr(true), invoiceReminders.GetOr(true))
  }

  /** The form's own default values: every preference on. */
  function NotificationDefaults(): (v: NotificationFormValues)
    ensures v.emailNotifications && v.projectUpdates && v.taskAssignments && v.invoiceReminders
  {
    NotificationFormValues(true, true, true, true)
  }

  // ---------------------------------------------------------------------
  // The handlers

  datatype Request =
    | UpdateProfile(userId: int, profile: ProfileFormValues)
    | ChangePassword(userId: int, currentPassword: string, newPassword: string)
    | UpdateLanguage(userId: int, language: I18n.Lang)

  /** The page: the signed-in user, the password form, the requests sent, and the translator it switches. */
  class Settings {
    var user: Option<User>
    var passwordForm: PasswordFormValues
    var requests: seq<Request>
    const translator: I18n.Translator

    constructor (user: Option<User>, translator: I18n.Translator)
      ensures this.user == user && this.translator == translator
      ensures passwordForm == PasswordFormValues("", "", "") && requests == []
    {
      this.user := user;
      this.translator := translator;
      passwordForm := PasswordFormValues("", "", "");
      requests := [];
    }

    /**
     * handleProfileUpdate: without a user, nothing; otherwise the profile is
     * sent, and on success the user becomes the one the server returned.
     */
    method HandleProfileUpdate(data: ProfileFormValues, ok: bool, returned: User)
      modifies this
      ensures old(user).None? ==> user == old(user) && requests == old(requests)
      ensures old(user).Some? ==> requests == old(requests) + [UpdateProfile(old(user).value.id, data)]
      ensures old(user).Some? ==> user == if ok then Some(returned) else old(user)
      ensures passwordForm == old(passwordForm)
    {
      if user.None? {
        return;
      }
      requests := requests + [UpdateProfile(user.value.id, data)];
      if ok {
        user := Some(returned);
      }
    }

    /**
     * handlePasswordUpdate: without a user, nothing; otherwise the current
     * and new passwords (not the confirmation) are sent, and the form is
     * cleared only on success.
     */
    method HandlePasswordUpdate(data: PasswordFormValues, ok: bool)
      modifies this
      ensures user == old(user)
      ensures old(user).None? ==> requests == old(requests) && passwordForm == old(passwordForm)
      ensures old(user).Some? ==>
        requests == old(requests) + [ChangePassword(old(user).value.id, data.currentPassword, data.newPassword)]
      ensures old(user).Some? ==> passwordForm == if ok then PasswordFormValues("", "", "") else old(passwordForm)
    {
      if user.None? {
        return;
      }
      requests := requests + [ChangePassword(user.value.id, data.currentPassword, data.newPassword)];
      if ok {
        passwordForm := PasswordFormValues("", "", "");
      }
    }

    /** handleNotificationUpdate: saving the preferences sends nothing and changes nothing. */
    method HandleNotificationUpdate(data: NotificationFormValues)
      ensures user == old(user) && requests == old(requests) && passwordForm == old(passwordForm)
    {
    }

    /**
     * handleLanguageChange: without a user, nothing; otherwise the language
     * is sent, and the page's language switches only once the server has
     * accepted it.
     */
    method HandleLanguageChange(lang: I18n.Lang, ok: bool)
      modifies this, translator
      ensures user == old(user) && passwordForm == old(passwordForm)
      ensures old(user).None? ==> requests == old(requests)
      ensures old(user).Some? ==> requests == old(requests) + [UpdateLanguage(old(user).value.id, lang)]
      ensures translator.currentLanguage ==
        if old(user).Some? && ok then I18n.LangName(lang) else old(translator.currentLanguage)
    {
      if user.None? {
        return;
      }
      requests := requests + [UpdateLanguage(user.value.id, lang)];
      if ok {
        translator.SetLanguage(lang);
      }
    }
  }
}
