/** The add-account dialog: the live TOTP preview (current and next code,
    countdown and its colour), the timer that drives it, the copy-on-click
    guard, the required-field check on save and the password generator.

    Every tick recomputes both codes from the clock; nothing is carried
    from one tick to the next except the secret captured by the timer. */
module AddAccountDialog {
  import opened Strings
  import opened Values

  /** pyotp.TOTP(secret).at(t), t in whole seconds: the code, or None when
      the library raises (a secret that does not decode). The algorithm
      itself (RFC 6238 over RFC 4226) is not part of this model. */
  type TotpFunction = (string, nat) -> Option<string>

  /** The time step X of RFC 6238 section 4.2 (T0 = 0), in seconds. */
  const Period: nat := 30
  /** The clock is read in milliseconds; one time step is this many. */
  const PeriodMs: nat := 30000
  const MsPerSecond: nat := 1000

  // -----------------------------------------------------------------------
  // Secret cleaning

  /** secret.replace(" ", "") */
  function RemoveSpaces(s: string): (r: string)
    ensures ' ' !in r
    ensures |r| <= |s|
    ensures ' ' !in s ==> r == s
  {
    NoSpaceAfterReplace(s);
    ReplaceAllWhenAbsent(s, " ", "");
    ReplaceAll(s, " ", "")
  }

  /** A space disappears and any other character stays. */
  lemma RemoveSpacesOneChar(x: char)
    ensures RemoveSpaces([x]) == if x == ' ' then "" else [x]
  {
    ReplaceOneChar(x, ' ', "");
  }

  /** Spaces are removed piece by piece, so the other characters stay in
      their order. */
  lemma RemoveSpacesAppend(a: string, b: string)
    ensures RemoveSpaces(a + b) == RemoveSpaces(a) + RemoveSpaces(b)
  {
    ReplaceCharAppend(a, b, ' ', "");
  }

  lemma {:induction false} NoSpaceAfterReplace(s: string)
    ensures ' ' !in ReplaceAll(s, " ", "")
    ensures |ReplaceAll(s, " ", "")| <= |s|
    decreases |s|
  {
    if |s| > 0 {
      if StartsWith(s, " ") {
        NoSpaceAfterReplace(s[1..]);
      } else {
        NoSpaceAfterReplace(s[1..]);
        assert s[0] != ' ';
      }
    }
  }

  /** The secret handed to pyotp: spaces removed, letters upper-cased. */
  function CleanSecret(secret: string): (r: string)
    ensures ' ' !in r
    ensures forall i :: 0 <= i < |r| ==> !('a' <= r[i] <= 'z')
    ensures |r| <= |secret|
    ensures r == Upper(RemoveSpaces(secret))
  {
    var noSpaces := RemoveSpaces(secret);
    var r := Upper(noSpaces);
    assert forall i :: 0 <= i < |r| ==> r[i] != ' ' by {
      forall i | 0 <= i < |r| ensures r[i] != ' ' {
        assert noSpaces[i] in noSpaces;
      }
    }
    r
  }

  /** A space is dropped and any other character is upper-cased. */
  lemma CleanSecretOneChar(x: char)
    ensures CleanSecret([x]) == if x == ' ' then "" else [UpperChar(x)]
  {
    RemoveSpacesOneChar(x);
  }

  /** The secret is cleaned piece by piece: the kept characters keep their
      order. */
  lemma CleanSecretAppend(a: string, b: string)
    ensures CleanSecret(a + b) == CleanSecret(a) + CleanSecret(b)
  {
    RemoveSpacesAppend(a, b);
    var ra, rb := RemoveSpaces(a), RemoveSpaces(b);
    assert Upper(ra + rb) == Upper(ra) + Upper(rb);
  }

  /** Cleaning a cleaned secret changes nothing. */
  lemma CleanSecretIdempotent(secret: string)
    ensures CleanSecret(CleanSecret(secret)) == CleanSecret(secret)
  {
    var c := CleanSecret(secret);
    assert RemoveSpaces(c) == c;
    assert Upper(c) == c;
  }

  // -----------------------------------------------------------------------
  // Time step, countdown and its colour

  /** int(t / 30): the RFC 6238 time counter of the instant t (in ms). */
  function TimeStep(ms: nat): (step: nat)
    ensures step * PeriodMs <= ms < (step + 1) * PeriodMs
  {
    ms / PeriodMs
  }

  /** 30 - (t % 30), in ms: the time until the next step begins. */
  function RemainingMs(ms: nat): (r: nat)
    ensures 0 < r <= PeriodMs
    ensures TimeStep(ms + r) == TimeStep(ms) + 1
  {
    PeriodMs - ms % PeriodMs
  }

  /** Until the countdown runs out the clock stays in the same step. */
  lemma SameStepUntilZero(ms: nat, d: nat)
    requires d < RemainingMs(ms)
    ensures TimeStep(ms + d) == TimeStep(ms)
  {
    var q := ms / PeriodMs;
    assert q * PeriodMs <= ms + d < (q + 1) * PeriodMs;
    DivBetween(ms + d, q);
  }

  lemma DivBetween(x: nat, q: nat)
    requires q * PeriodMs <= x < (q + 1) * PeriodMs
    ensures x / PeriodMs == q
  {
  }

  /** int(time_remaining): the whole seconds shown in "Time left: Ns". */
  function SecondsLeft(ms: nat): (s: nat)
    ensures s <= 30
    ensures s == 30 <==> ms % PeriodMs == 0
    ensures s == 0 <==> ms % PeriodMs > PeriodMs - MsPerSecond
  {
    RemainingMs(ms) / MsPerSecond
  }

  /** The colour of the current code: green above 10 s, yellow above 5 s,
      red otherwise. */
  function CountdownTier(remainingMs: nat): (t: Tier)
    ensures t == Green <==> remainingMs > 10 * MsPerSecond
    ensures t == Yellow <==> 5 * MsPerSecond < remainingMs <= 10 * MsPerSecond
    ensures t == Red <==> remainingMs <= 5 * MsPerSecond
  {
    if remainingMs > 10 * MsPerSecond then Green
    else if remainingMs > 5 * MsPerSecond then Yellow
    else Red
  }

  // -----------------------------------------------------------------------
  // One tick of the preview

  /** What one tick puts on screen: both codes, the countdown and its tier,
      or the error state when either code cannot be computed. */
  datatype TotpView = Codes(current: string, next: string, secondsLeft: nat, tier: Tier) | Invalid

  function View(totp: TotpFunction, secret: string, ms: nat): (v: TotpView)
    ensures v.Invalid? <==> (totp(CleanSecret(secret), TimeStep(ms) * Period).None?
      || totp(CleanSecret(secret), (TimeStep(ms) + 1) * Period).None?)
    ensures v.Codes? ==> v.secondsLeft <= 30 && v.tier == CountdownTier(RemainingMs(ms))
  {
    var clean := CleanSecret(secret);
    var step := TimeStep(ms);
    var current := totp(clean, step * Period);
    var next := totp(clean, (step + 1) * Period);
    if current.Some? && next.Some? then
      Codes(current.value, next.value, SecondsLeft(ms), CountdownTier(RemainingMs(ms)))
    else
      Invalid
  }

  /** The codes shown are those of the step containing t and of the step
      after it; the error state appears exactly when either is missing. */
  lemma ViewCodes(totp: TotpFunction, secret: string, ms: nat)
    ensures var v := View(totp, secret, ms);
      var clean := CleanSecret(secret);
      (v.Invalid? <==> totp(clean, TimeStep(ms) * Period).None? || totp(clean, (TimeStep(ms) + 1) * Period).None?)
      && (v.Codes? ==>
            Some(v.current) == totp(clean, ms / PeriodMs * Period)
            && Some(v.next) == totp(clean, ms / PeriodMs * Period + Period)
            && v.secondsLeft <= 30)
  {
  }

  /** Two ticks within the same 30-second step show the same codes. */
  lemma SameStepSameCodes(totp: TotpFunction, secret: string, a: nat, b: nat)
    requires TimeStep(a) == TimeStep(b)
    ensures View(totp, secret, a).Invalid? == View(totp, secret, b).Invalid?
    ensures View(totp, secret, a).Codes? ==>
      View(totp, secret, a).current == View(totp, secret, b).current
      && View(totp, secret, a).next == View(totp, secret, b).next
  {
  }

  /** "Next" is exactly one step ahead: the next code shown at t is the
      current code shown at any instant of the following step. */
  lemma NextIsOneStepAhead(totp: TotpFunction, secret: string, a: nat, b: nat)
    requires TimeStep(b) == TimeStep(a) + 1
    requires View(totp, secret, a).Codes? && View(totp, secret, b).Codes?
    ensures View(totp, secret, a).next == View(totp, secret, b).current
  {
  }

  /** Text of the three labels for a view. */
  function CurrentLabel(v: TotpView): string
  {
    CurrentPrefix + (if v.Codes? then v.current else InvalidMfa)
  }

  function NextLabel(v: TotpView): string
  {
    NextPrefix + (if v.Codes? then v.next else "---")
  }

  function TimerLabel(v: TotpView): string
  {
    if v.Codes? then "Time left: " + NatToString(v.secondsLeft) + "s" else "Check MFA secret format"
  }

  // -----------------------------------------------------------------------
  // Copy on click

  const CurrentPrefix: string := "Current TOTP: "
  const NextPrefix: string := "Next TOTP: "
  /** The word that marks an error text, and the error the current label
      shows. */
  const InvalidWord: string := "Invalid"
  const InvalidMfa: string := InvalidWord + " MFA"

  /** copy_to_clipboard: the clipboard receives the text only when it is
      non-empty, not the placeholder "---" and not an error text. */
  function ClipboardText(text: string): (r: Option<string>)
    ensures r.Some? <==> text != "" && text != "---" && !Contains(text, InvalidWord)
    ensures r.Some? ==> r.value == text
  {
    if text != "" && text != "---" && !Contains(text, InvalidWord) then Some(text) else None
  }

  /** A click on a label copies the label text with its caption removed. */
  function ClickCopy(shown: string, caption: string): (r: Option<string>)
    requires |caption| > 0
    ensures r.Some? ==> r.value != "" && r.value != "---" && !Contains(r.value, InvalidWord)
  {
    ClipboardText(ReplaceAll(shown, caption, ""))
  }

  /** In the error state neither label copies anything, and neither does
      the "---" placeholder the labels start with. */
  lemma ErrorCurrentLabelCopiesNothing()
    ensures ClickCopy(CurrentLabel(Invalid), CurrentPrefix) == None
  {
    assert CurrentPrefix[0] == 'C' && 'C' !in InvalidMfa;
    ReplaceAllPrefix(CurrentPrefix, InvalidMfa);
    assert InvalidMfa[..|InvalidWord|] == InvalidWord;
    assert Contains(InvalidMfa, InvalidWord);
  }

  lemma ErrorNextLabelCopiesNothing()
    ensures ClickCopy(NextLabel(Invalid), NextPrefix) == None
  {
    ReplaceAllPrefix(NextPrefix, "---");
  }

  lemma PlaceholderCopiesNothing()
    ensures ClickCopy("Current TOTP: ---", CurrentPrefix) == None
    ensures ClickCopy("Next TOTP: ---", NextPrefix) == None
  {
    assert "Current TOTP: ---" == CurrentPrefix + "---";
    ReplaceAllPrefix(CurrentPrefix, "---");
    assert "Next TOTP: ---" == NextPrefix + "---";
    ReplaceAllPrefix(NextPrefix, "---");
  }

  /** A numeric code on screen is copied exactly, from either label. */
  lemma CodeLabelsCopyTheCode(v: TotpView)
    requires v.Codes?
    requires |v.current| > 0 && IsDigits(v.current)
    requires |v.next| > 0 && IsDigits(v.next)
    ensures ClickCopy(CurrentLabel(v), CurrentPrefix) == Some(v.current)
    ensures ClickCopy(NextLabel(v), NextPrefix) == Some(v.next)
  {
    assert 'C' !in v.current && 'N' !in v.next && 'I' !in v.current && 'I' !in v.next by {
      forall c | c in v.current ensures '0' <= c <= '9' { }
      forall c | c in v.next ensures '0' <= c <= '9' { }
    }
    ReplaceAllPrefix(CurrentPrefix, v.current);
    ReplaceAllPrefix(NextPrefix, v.next);
    NotContainsWhenFirstCharAbsent(v.current, InvalidWord);
    NotContainsWhenFirstCharAbsent(v.next, InvalidWord);
    assert v.current != "---" by { assert v.current[0] != '-'; }
    assert v.next != "---" by { assert v.next[0] != '-'; }
  }

  // -----------------------------------------------------------------------
  // Password generator

  /** string.ascii_letters + string.digits + "!@#$%^&*" */
  const Alphabet: string := "abcdefghijklmnopqrstuvwxyzABCDEFGHIJKLMNOPQRSTUVWXYZ0123456789!@#$%^&*"
  const DefaultPasswordLength: nat := 16

  /** PasswordGenerator.generate_password(length): draw i picks the
      character at position choice(i) (reduced to the alphabet's size); the
      random source itself is a parameter. */
  method GeneratePassword(length: nat, choice: nat -> nat) returns (password: string)
    ensures |password| == length
    ensures forall i :: 0 <= i < |password| ==> password[i] in Alphabet
    ensures forall i :: 0 <= i < |password| ==> password[i] == Alphabet[choice(i) % |Alphabet|]
  {
    password := "";
    var i := 0;
    while i < length
      invariant i == |password| <= length
      invariant forall k :: 0 <= k < i ==> password[k] == Alphabet[choice(k) % |Alphabet|]
    {
      password := password + [Alphabet[choice(i) % |Alphabet|]];
      i := i + 1;
    }
  }

  // -----------------------------------------------------------------------
  // Required fields

  const RequiredFields: seq<string> := ["email", "password", "access_key", "secret_key"]

  /** validate_data: the first empty required field, in the order email,
      password, access_key, secret_key, is reported; otherwise (True, ""). */
  method ValidateData(data: map<string, string>) returns (ok: bool, message: string)
    requires forall i :: 0 <= i < |RequiredFields| ==> RequiredFields[i] in data
    ensures ok <==> forall i :: 0 <= i < |RequiredFields| ==> data[RequiredFields[i]] != ""
    ensures ok ==> message == ""
    ensures !ok ==> exists i :: (0 <= i < |RequiredFields| && data[RequiredFields[i]] == ""
      && (forall j :: 0 <= j < i ==> data[RequiredFields[j]] != "")
      && message == "Field " + RequiredFields[i] + " is required")
  {
    var i := 0;
    while i < |RequiredFields|
      invariant 0 <= i <= |RequiredFields|
      invariant forall j :: 0 <= j < i ==> data[RequiredFields[j]] != ""
    {
      var field := RequiredFields[i];
      if data[field] == "" {
        return false, "Field " + field + " is required";
      }
      i := i + 1;
    }
    return true, "";
  }

  /** Every required field is present and non-empty. */
  predicate Filled(data: map<string, string>)
  {
    forall i :: 0 <= i < |RequiredFields| ==> RequiredFields[i] in data && data[RequiredFields[i]] != ""
  }

  lemma FilledByName(d: map<string, string>)
    ensures (forall i :: 0 <= i < |RequiredFields| ==> RequiredFields[i] in d) <==>
      ("email" in d && "password" in d && "access_key" in d && "secret_key" in d)
    ensures Filled(d) <==> (("email" in d && d["email"] != "") && ("password" in d && d["password"] != "")
      && ("access_key" in d && d["access_key"] != "") && ("secret_key" in d && d["secret_key"] != ""))
  {
    assert RequiredFields[0] == "email" && RequiredFields[1] == "password";
    assert RequiredFields[2] == "access_key" && RequiredFields[3] == "secret_key";
  }

  // -----------------------------------------------------------------------
  // The dialog's state

  /** A QTimer whose timeout refreshes the preview for the secret it
      captured when it was started. */
  class Timer {
    const secret: string
    var running: bool

    constructor Start(secret: string)
      ensures this.secret == secret && running
    {
      this.secret := secret;
      running := true;
    }

    /** stop(); stopping a stopped timer does nothing. */
    method Stop()
      modifies this
      ensures !running
    {
      running := false;
    }
  }

  class Dialog {
    /** The pyotp library, None when it could not be imported. */
    const pyotp: Option<TotpFunction>

    var mfaText: string
    var frameVisible: bool
    var totpTimer: Timer?
    /** Every timer the dialog has started. */
    ghost var timers: set<Timer>

    var currentLabel: string
    var nextLabel: string
    var timerLabel: string
    /** Colour of the current-code label. */
    var currentColor: string

    // Form fields read by get_account_data.
    var email: string
    var password: string
    var accessKey: string
    var secretKey: string
    var region: string
    var country: string
    var comment: string

    /** Payloads emitted through the account_added signal. */
    var emitted: seq<map<string, string>>
    /** Text of the last warning box. */
    var warning: string
    var accepted: bool
    var closed: bool

    /** At most one timer runs, and it is the one the dialog holds. */
    ghost predicate Valid()
      reads this, timers
    {
      (totpTimer != null ==> totpTimer in timers)
      && forall t :: t in timers && t.running ==> t == totpTimer
    }

    /** The three labels show the view v (the colour changes only when
        codes are shown). */
    ghost predicate Shows(v: TotpView)
      reads this
    {
      currentLabel == CurrentLabel(v) && nextLabel == NextLabel(v) && timerLabel == TimerLabel(v)
      && (v.Codes? ==> currentColor == TierColor(v.tier))
    }

    /** The dialog as __init__ leaves it: a password of the default length
        drawn by choice, the default region and country, the preview hidden
        and no timer. */
    constructor (pyotp: Option<TotpFunction>, choice: nat -> nat)
      ensures Valid() && this.pyotp == pyotp
      ensures totpTimer == null && timers == {} && !frameVisible
      ensures currentLabel == "Current TOTP: ---" && nextLabel == "Next TOTP: ---"
      ensures timerLabel == "Time left: 30s" && currentColor == "#28a745"
      ensures |password| == DefaultPasswordLength
      ensures forall i :: 0 <= i < |password| ==> password[i] == Alphabet[choice(i) % |Alphabet|]
      ensures region == "US East (Ohio)" && country == "United States"
      ensures email == "" && accessKey == "" && secretKey == "" && comment == "" && mfaText == ""
      ensures emitted == [] && !accepted && !closed
    {
      var generated := GeneratePassword(DefaultPasswordLength, choice);
      this.pyotp := pyotp;
      mfaText := "";
      frameVisible := false;
      totpTimer := null;
      timers := {};
      currentLabel := "Current TOTP: ---";
      nextLabel := "Next TOTP: ---";
      timerLabel := "Time left: 30s";
      currentColor := "#28a745";
      email := "";
      password := generated;
      accessKey := "";
      secretKey := "";
      region := "US East (Ohio)";
      country := "United States";
      comment := "";
      emitted := [];
      warning := "";
      accepted := false;
      closed := false;
    }

    /** generate_new_password: the password field gets a fresh password of
        the default length; nothing else changes. */
    method GenerateNewPassword(choice: nat -> nat)
      modifies this`password
      ensures |password| == DefaultPasswordLength
      ensures forall i :: 0 <= i < |password| ==> password[i] in Alphabet
      ensures forall i :: 0 <= i < |password| ==> password[i] == Alphabet[choice(i) % |Alphabet|]
    {
      password := GeneratePassword(DefaultPasswordLength, choice);
    }

    /** update_totp_codes(secret) at the instant now (ms). */
    method UpdateTotpCodes(secret: string, now: nat)
      modifies this`currentLabel, this`nextLabel, this`timerLabel, this`currentColor
      ensures pyotp.None? ==> unchanged(this)
      ensures pyotp.Some? ==> Shows(View(pyotp.value, secret, now))
      ensures pyotp.Some? && View(pyotp.value, secret, now).Invalid? ==> currentColor == old(currentColor)
    {
      if pyotp.None? {
        return;
      }
      var v := View(pyotp.value, secret, now);
      currentLabel := CurrentLabel(v);
      nextLabel := NextLabel(v);
      timerLabel := TimerLabel(v);
      if v.Codes? {
        currentColor := TierColor(v.tier);
      }
    }

    /** start_totp_timer: stop the old timer, start a new one holding the
        secret, and refresh at once. */
    method StartTotpTimer(secret: string, now: nat)
      requires Valid()
      modifies this`totpTimer, this`timers, this`currentLabel, this`nextLabel, this`timerLabel,
        this`currentColor, timers
      ensures Valid()
      ensures fresh(totpTimer) && totpTimer.running && totpTimer.secret == secret
      ensures timers == old(timers) + {totpTimer}
      ensures pyotp.Some? ==> Shows(View(pyotp.value, secret, now))
      ensures pyotp.None? ==> (currentLabel == old(currentLabel) && nextLabel == old(nextLabel)
        && timerLabel == old(timerLabel) && currentColor == old(currentColor))
      ensures mfaText == old(mfaText) && frameVisible == old(frameVisible)
    {
      if totpTimer != null {
        totpTimer.Stop();
      }
      var t := new Timer.Start(secret);
      totpTimer := t;
      timers := timers + {t};
      UpdateTotpCodes(secret, now);
    }

    /** on_mfa_changed: the secret field now reads text. A non-blank secret
        (with pyotp present) shows the preview and leaves exactly one timer
        running, for the stripped secret; anything else hides the preview
        and drops the timer. */
    method OnMfaChanged(text: string, now: nat)
      requires Valid()
      modifies this`mfaText, this`frameVisible, this`totpTimer, this`timers, this`currentLabel,
        this`nextLabel, this`timerLabel, this`currentColor, timers
      ensures Valid() && mfaText == text
      ensures frameVisible <==> Strip(text) != "" && pyotp.Some?
      ensures frameVisible ==> (fresh(totpTimer) && totpTimer.running && totpTimer.secret == Strip(text)
        && timers == old(timers) + {totpTimer} && Shows(View(pyotp.value, Strip(text), now)))
      ensures !frameVisible ==> (totpTimer == null && timers == old(timers)
        && currentLabel == old(currentLabel) && nextLabel == old(nextLabel) && timerLabel == old(timerLabel)
        && currentColor == old(currentColor))
      ensures forall t :: t in timers && t.running ==> frameVisible && t == totpTimer
    {
      mfaText := text;
      var secret := Strip(text);
      if secret != "" && pyotp.Some? {
        frameVisible := true;
        StartTotpTimer(secret, now);
      } else {
        frameVisible := false;
        if totpTimer != null {
          totpTimer.Stop();
          totpTimer := null;
        }
      }
    }

    /** The timer's timeout: a running timer refreshes the preview for the
        secret it captured; a stopped one does not fire. */
    method Tick(now: nat)
      modifies this`currentLabel, this`nextLabel, this`timerLabel, this`currentColor
      ensures totpTimer != null && totpTimer.running && pyotp.Some? ==>
        Shows(View(pyotp.value, totpTimer.secret, now))
      ensures totpTimer == null || !totpTimer.running || pyotp.None? ==> unchanged(this)
    {
      if totpTimer != null && totpTimer.running {
        UpdateTotpCodes(totpTimer.secret, now);
      }
    }

    /** closeEvent: the held timer is stopped (and kept); the dialog closes. */
    method CloseEvent()
      requires Valid()
      modifies this`closed, timers
      ensures Valid() && closed
      ensures forall t :: t in timers ==> !t.running
    {
      if totpTimer != null {
        totpTimer.Stop();
      }
      closed := true;
    }

    /** get_account_data: the form as a dictionary; every text is
        stripped except the region, which comes from a fixed list. */
    function AccountData(): (d: map<string, string>)
      reads this`email, this`password, this`mfaText, this`accessKey, this`secretKey,
        this`region, this`country, this`comment
      ensures Filled(d) <==> (Strip(email) != "" && Strip(password) != ""
        && Strip(accessKey) != "" && Strip(secretKey) != "")
      ensures forall i :: 0 <= i < |RequiredFields| ==> RequiredFields[i] in d
    {
      var d := map["provider" := "AWS",
          "region" := region,
          "country" := Strip(country),
          "comment" := Strip(comment),
          "mfa_secret" := Strip(mfaText),
          "email" := Strip(email),
          "password" := Strip(password),
          "access_key" := Strip(accessKey),
          "secret_key" := Strip(secretKey)];
      FilledByName(d);
      d
    }

    /** save_account: account_added is emitted (and the dialog accepted)
        exactly when every required field is filled; otherwise a warning
        names the first empty one and nothing else changes. */
    method SaveAccount()
      modifies this`emitted, this`warning, this`accepted
      ensures var d := AccountData(); Filled(d) ==> emitted == old(emitted) + [d] && accepted
      ensures var d := AccountData(); Filled(d) ==> warning == old(warning)
      ensures var d := AccountData(); !Filled(d) ==> emitted == old(emitted) && accepted == old(accepted)
      ensures var d := AccountData(); !Filled(d) ==> exists i :: (0 <= i < |RequiredFields|
        && RequiredFields[i] in d && d[RequiredFields[i]] == ""
        && (forall j :: 0 <= j < i ==> d[RequiredFields[j]] != "")
        && warning == "Field " + RequiredFields[i] + " is required")
    {
      var data := AccountData();
      var ok, message := ValidateData(data);
      assert ok <==> Filled(data);
      if !ok {
        warning := message;
        return;
      }
      emitted := emitted + [data];
      accepted := true;
    }
  }
}
