/**
 * The settings page's own logic: the ordered checks of the password form,
 * the notification switches, and the label each switch is shown under.
 */
module Settings {
  import opened Text

  const MinPasswordLength := 6
  const MismatchMessage := "New passwords do not match."
  const TooShortMessage := "Password must be at least 6 characters long."
  const ChangedMessage := "Password changed successfully!"

  datatype PasswordForm = PasswordForm(currentPassword: string, newPassword: string, confirmPassword: string)

  const EmptyForm := PasswordForm("", "", "")

  /** The outcome of `handlePasswordChange`'s checks. */
  datatype PasswordCheck = Mismatch | TooShort | Accepted

  /** The confirmation is compared first; only a matching pair is checked for length. */
  function CheckPassword(form: PasswordForm): (r: PasswordCheck)
    ensures r == Mismatch <==> form.newPassword != form.confirmPassword
    ensures r == Accepted ==> |form.confirmPassword| >= MinPasswordLength
  {
    if form.newPassword != form.confirmPassword then Mismatch
    else if |form.newPassword| < MinPasswordLength then TooShort
    else Accepted
  }

  /** The message a rejected form leaves; an accepted one leaves the cleared message. */
  function CheckMessage(c: PasswordCheck): string {
    match c
    case Mismatch => MismatchMessage
    case TooShort => TooShortMessage
    case Accepted => ""
  }

  /**
   * A form is accepted exactly when both new fields agree and are at least six
   * characters long; a mismatch is reported whatever the length, and a short
   * password only when the fields agree.
   */
  lemma CheckPasswordIff(form: PasswordForm)
    ensures CheckPassword(form) == Accepted <==>
            form.newPassword == form.confirmPassword && |form.newPassword| >= 6
    ensures CheckPassword(form) == Mismatch <==> form.newPassword != form.confirmPassword
    ensures CheckPassword(form) == TooShort <==>
            form.newPassword == form.confirmPassword && |form.newPassword| < 6
  {
  }

  // ----- switch labels: `key.replace(/([A-Z])/g, ' $1').replace(/^./, upper)` -----

  predicate IsUpper(c: char) {
    'A' <= c <= 'Z'
  }

  predicate IsLower(c: char) {
    'a' <= c <= 'z'
  }

  /** The characters the regular expression `.` does not match. */
  predicate IsLineTerminator(c: char) {
    c == '\n' || c == '\r' || c == '\U{2028}' || c == '\U{2029}'
  }

  /** The first replace: a space in front of every capital letter. */
  function SpaceBeforeCapitals(s: string): string {
    if s == [] then []
    else (if IsUpper(s[0]) then [' ', s[0]] else [s[0]]) + SpaceBeforeCapitals(s[1..])
  }

  /** The second replace: the first character upper-cased, unless it is a line terminator. */
  function CapitalizeFirst(s: string): string {
    if s == [] || IsLineTerminator(s[0]) then s else [UpperChar(s[0])] + s[1..]
  }

  /** The label a switch is shown under. */
  function Label(key: string): (r: string)
    ensures |key| > 0 ==> |r| > 0
    ensures |key| > 0 && IsLower(key[0]) ==> r[0] == UpperChar(key[0])
  {
    CapitalizeFirst(SpaceBeforeCapitals(key))
  }

  /** A camel-case key: it starts with a small letter and has no spaces. */
  ghost predicate CamelKey(key: string) {
    |key| > 0 && IsLower(key[0]) && forall i :: 0 <= i < |key| ==> key[i] != ' '
  }

  function DropSpaces(s: string): (r: string)
    ensures forall i :: 0 <= i < |r| ==> r[i] != ' '
  {
    if s == [] then []
    else (if s[0] == ' ' then [] else [s[0]]) + DropSpaces(s[1..])
  }

  /** Reads a label back as a key: spaces dropped, first letter made small. */
  function Unlabel(shown: string): string {
    var t := DropSpaces(shown);
    if t == [] then t else [LowerChar(t[0])] + t[1..]
  }

  /** Inserting spaces and then dropping them gives back a key without spaces. */
  lemma {:induction false} DropSpacesUndoesSpacing(s: string)
    requires forall i :: 0 <= i < |s| ==> s[i] != ' '
    ensures DropSpaces(SpaceBeforeCapitals(s)) == s
  {
    if s != [] {
      var head := if IsUpper(s[0]) then [' ', s[0]] else [s[0]];
      var rest := SpaceBeforeCapitals(s[1..]);
      assert SpaceBeforeCapitals(s) == head + rest;
      DropSpacesConcat(head, rest);
      DropSpacesUndoesSpacing(s[1..]);
      assert DropSpaces(head) == [s[0]] by {
        assert DropSpaces([s[0]]) == [s[0]] by {
          assert [s[0]][1..] == [];
        }
        if IsUpper(s[0]) {
          assert head[1..] == [s[0]];
        }
      }
      assert s == [s[0]] + s[1..];
    }
  }

  lemma {:induction false} DropSpacesConcat(a: string, b: string)
    ensures DropSpaces(a + b) == DropSpaces(a) + DropSpaces(b)
  {
    if a != [] {
      assert (a + b)[1..] == a[1..] + b;
      DropSpacesConcat(a[1..], b);
    } else {
      assert a + b == b;
    }
  }

  /** A camel-case key is recovered from its label. */
  lemma LabelRoundTrip(key: string)
    requires CamelKey(key)
    ensures Unlabel(Label(key)) == key
  {
    var up := UpperChar(key[0]);
    var rest := SpaceBeforeCapitals(key[1..]);
    assert SpaceBeforeCapitals(key) == [key[0]] + rest;
    assert Label(key) == [up] + rest;
    DropSpacesConcat([up], rest);
    assert DropSpaces([up]) == [up] by {
      assert [up][1..] == [];
    }
    assert forall i :: 0 <= i < |key[1..]| ==> key[1..][i] == key[i + 1];
    DropSpacesUndoesSpacing(key[1..]);
    var t := DropSpaces(Label(key));
    assert t == [up] + key[1..];
    assert LowerChar(up) == key[0];
    assert t[1..] == key[1..];
    assert key == [key[0]] + key[1..];
  }

  /** In a label every capital after the first character follows a space. */
  lemma {:induction false} SpacedCapitals(s: string)
    ensures var t := SpaceBeforeCapitals(s);
            forall i :: 0 <= i < |t| && IsUpper(t[i]) ==> i > 0 && t[i - 1] == ' '
  {
    if s != [] {
      SpacedCapitals(s[1..]);
      var head := if IsUpper(s[0]) then [' ', s[0]] else [s[0]];
      var t := head + SpaceBeforeCapitals(s[1..]);
      forall i | 0 <= i < |t| && IsUpper(t[i]) ensures i > 0 && t[i - 1] == ' ' {
        if i >= |head| {
          assert t[i] == SpaceBeforeCapitals(s[1..])[i - |head|];
          if i - |head| > 0 {
            assert t[i - 1] == SpaceBeforeCapitals(s[1..])[i - |head| - 1];
          }
        }
      }
    }
  }

  lemma SpacingCapital(c: char)
    requires IsUpper(c)
    ensures SpaceBeforeCapitals([c]) == [' ', c]
  {
    assert [c][1..] == [];
  }

  lemma SpacedTwoWords(a: string, c: char, b: string)
    requires forall i :: 0 <= i < |a| ==> !IsUpper(a[i])
    requires forall i :: 0 <= i < |b| ==> !IsUpper(b[i])
    requires IsUpper(c)
    ensures SpaceBeforeCapitals(a + [c] + b) == a + [' ', c] + b
  {
    var cb := [c] + b;
    SpacingConcat([c], b);
    SpacingCapital(c);
    NoCapitalsUnchanged(b);
    assert SpaceBeforeCapitals(cb) == [' ', c] + b;
    SpacingConcat(a, cb);
    NoCapitalsUnchanged(a);
    assert a + [c] + b == a + cb;
  }

  /**
   * A two-word key `a` + `Cb` (one capital, `a` starting with a small letter) is
   * shown as the capitalised first word, a space, and the second word.
   */
  lemma TwoWordLabel(a: string, c: char, b: string)
    requires |a| > 0 && IsLower(a[0])
    requires forall i :: 0 <= i < |a| ==> !IsUpper(a[i])
    requires forall i :: 0 <= i < |b| ==> !IsUpper(b[i])
    requires IsUpper(c)
    ensures Label(a + [c] + b) == [UpperChar(a[0])] + a[1..] + [' ', c] + b
  {
    SpacedTwoWords(a, c, b);
    var spaced := a + [' ', c] + b;
    assert spaced[0] == a[0];
    assert spaced[1..] == a[1..] + [' ', c] + b;
  }

  /** The label of the first switch, as shown on the page. */
  lemma MoodRemindersLabel(key: string)
    requires key == "moodReminders"
    ensures Label(key) == "Mood Reminders"
  {
    assert key == "mood" + ['R'] + "eminders";
    TwoWordLabel("mood", 'R', "eminders");
  }

  /** A string without capitals gets no spaces. */
  lemma {:induction false} NoCapitalsUnchanged(s: string)
    requires forall i :: 0 <= i < |s| ==> !IsUpper(s[i])
    ensures SpaceBeforeCapitals(s) == s
  {
    if s != [] {
      NoCapitalsUnchanged(s[1..]);
      assert s == [s[0]] + s[1..];
    }
  }

  lemma {:induction false} SpacingConcat(a: string, b: string)
    ensures SpaceBeforeCapitals(a + b) == SpaceBeforeCapitals(a) + SpaceBeforeCapitals(b)
  {
    if a != [] {
      assert (a + b)[1..] == a[1..] + b;
      SpacingConcat(a[1..], b);
    } else {
      assert a + b == b;
    }
  }

  // ----- the page -----

  const DefaultNotifications: map<string, bool> :=
    map["moodReminders" := true, "weeklyReports" := true,
        "chatUpdates" := false, "emailNotifications" := true]

  class SettingsPage {
    var message: string
    var isLoading: bool
    var passwordData: PasswordForm
    var notifications: map<string, bool>
    /** Password changes accepted and not yet completed (each waits on its own timer). */
    var pendingChanges: nat

    constructor ()
      ensures message == "" && !isLoading && passwordData == EmptyForm
      ensures notifications == DefaultNotifications && pendingChanges == 0
    {
      message := "";
      isLoading := false;
      passwordData := EmptyForm;
      notifications := DefaultNotifications;
      pendingChanges := 0;
    }

    /** The three inputs' change handlers. */
    method EditPassword(form: PasswordForm)
      modifies this
      ensures passwordData == form
      ensures message == old(message) && isLoading == old(isLoading)
      ensures notifications == old(notifications) && pendingChanges == old(pendingChanges)
    {
      passwordData := form;
    }

    /**
     * `handlePasswordChange`: clears the message, then rejects a mismatched
     * pair, then a short password; an accepted form starts loading and
     * schedules the change. The fields are left as typed either way.
     */
    method HandlePasswordChange()
      modifies this
      ensures message == CheckMessage(CheckPassword(passwordData))
      ensures CheckPassword(passwordData) == Accepted ==> isLoading && pendingChanges == old(pendingChanges) + 1
      ensures CheckPassword(passwordData) != Accepted ==>
              isLoading == old(isLoading) && pendingChanges == old(pendingChanges)
      ensures passwordData == old(passwordData) && notifications == old(notifications)
    {
      message := "";
      if passwordData.newPassword != passwordData.confirmPassword {
        message := MismatchMessage;
        return;
      }
      if |passwordData.newPassword| < MinPasswordLength {
        message := TooShortMessage;
        return;
      }
      isLoading := true;
      pendingChanges := pendingChanges + 1;
    }

    /** The timer of an accepted change fires: success message, empty form, loading off. */
    method CompletePasswordChange()
      requires pendingChanges > 0
      modifies this
      ensures message == ChangedMessage && passwordData == EmptyForm && !isLoading
      ensures pendingChanges == old(pendingChanges) - 1
      ensures notifications == old(notifications)
    {
      message := ChangedMessage;
      passwordData := EmptyForm;
      isLoading := false;
      pendingChanges := pendingChanges - 1;
    }

    /** A switch's change handler: `{...notifications, [key]: checked}`. */
    method ToggleNotification(key: string, checked: bool)
      requires key in notifications
      modifies this
      ensures notifications == old(notifications)[key := checked]
      ensures notifications.Keys == old(notifications).Keys
      ensures forall k :: k in notifications && k != key ==> notifications[k] == old(notifications)[k]
      ensures message == old(message) && isLoading == old(isLoading)
      ensures passwordData == old(passwordData) && pendingChanges == old(pendingChanges)
    {
      notifications := notifications[key := checked];
    }
  }
}
