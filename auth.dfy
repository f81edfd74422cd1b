/** The sign-in pages' client logic: the password-strength meter, reading
    and pasting the six-box one-time code, and the session kept in the
    browser's local storage. */
module Auth {
  import opened Ledger

  // ---------------------------------------------------------------------
  // Password strength
  // ---------------------------------------------------------------------

  /** `password.length`: JavaScript counts UTF-16 code units, so a character
      outside the Basic Multilingual Plane counts twice. */
  function Utf16Length(s: string): nat
  {
    if s == [] then 0 else (if s[0] as int > 0xFFFF then 2 else 1) + Utf16Length(s[1..])
  }

  predicate IsLowerAscii(c: char) { 'a' <= c <= 'z' }
  predicate IsUpperAscii(c: char) { 'A' <= c <= 'Z' }
  predicate IsDigitAscii(c: char) { '0' <= c <= '9' }

  /** `/[a-z]/`, `/[A-Z]/`, `/[0-9]/` and `/[^a-zA-Z0-9]/` */
  predicate HasLower(s: string) { exists i :: 0 <= i < |s| && IsLowerAscii(s[i]) }
  predicate HasUpper(s: string) { exists i :: 0 <= i < |s| && IsUpperAscii(s[i]) }
  predicate HasDigit(s: string) { exists i :: 0 <= i < |s| && IsDigitAscii(s[i]) }
  predicate HasSymbol(s: string)
  {
    exists i :: 0 <= i < |s| && !IsLowerAscii(s[i]) && !IsUpperAscii(s[i]) && !IsDigitAscii(s[i])
  }

  /** The four things the meter gives a point for. */
  datatype Criterion = LongEnough | MixedCase | Digit | Symbol

  function Criteria(password: string): (r: set<Criterion>)
  {
    (if Utf16Length(password) >= 8 then {LongEnough} else {}) +
    (if HasLower(password) && HasUpper(password) then {MixedCase} else {}) +
    (if HasDigit(password) then {Digit} else {}) +
    (if HasSymbol(password) then {Symbol} else {})
  }

  /** The criteria met, counted: exactly one point per criterion. */
  lemma CriteriaCount(password: string)
    ensures |Criteria(password)| ==
      (if Utf16Length(password) >= 8 then 1 else 0) +
      (if HasLower(password) && HasUpper(password) then 1 else 0) +
      (if HasDigit(password) then 1 else 0) +
      (if HasSymbol(password) then 1 else 0)
  {
    var s0: set<Criterion> := if Utf16Length(password) >= 8 then {LongEnough} else {};
    var s1 := s0 + (if HasLower(password) && HasUpper(password) then {MixedCase} else {});
    assert MixedCase !in s0;
    var s2 := s1 + (if HasDigit(password) then {Digit} else {});
    assert Digit !in s1;
    var s3 := s2 + (if HasSymbol(password) then {Symbol} else {});
    assert Symbol !in s2;
    assert s3 == Criteria(password);
  }

  /** The score `checkPasswordStrength` accumulates: one point per criterion
      met, so between 0 and 4. */
  method PasswordScore(password: string) returns (strength: nat)
    ensures strength == |Criteria(password)| && strength <= 4
  {
    strength := 0;
    if Utf16Length(password) >= 8 {
      strength := strength + 1;
    }
    if HasLower(password) && HasUpper(password) {
      strength := strength + 1;
    }
    if HasDigit(password) {
      strength := strength + 1;
    }
    if HasSymbol(password) {
      strength := strength + 1;
    }
    CriteriaCount(password);
  }

  /** The class the meter shows; `NoStrength` is the bare meter. */
  datatype Strength = NoStrength | Weak | Medium | Strong

  function Classify(strength: nat, password: string): Strength
  {
    if strength == 0 || |password| == 0 then NoStrength
    else if strength <= 2 then Weak
    else if strength == 3 then Medium
    else Strong
  }

  /** `checkPasswordStrength(password)`: the class shown for the password. */
  method CheckPasswordStrength(password: string) returns (shown: Strength)
    ensures shown == Classify(|Criteria(password)|, password)
    ensures shown == NoStrength <==>
      Utf16Length(password) < 8 && !(HasLower(password) && HasUpper(password)) &&
      !HasDigit(password) && !HasSymbol(password)
    ensures shown == Weak <==> 1 <= |Criteria(password)| <= 2
    ensures shown == Medium <==> |Criteria(password)| == 3
    ensures shown == Strong <==>
      Utf16Length(password) >= 8 && HasLower(password) && HasUpper(password) &&
      HasDigit(password) && HasSymbol(password)
  {
    var strength := PasswordScore(password);
    if strength == 0 || |password| == 0 {
      shown := NoStrength;
    } else if strength <= 2 {
      shown := Weak;
    } else if strength == 3 {
      shown := Medium;
    } else {
      shown := Strong;
    }
    ClassifyMeaning(password);
  }

  /** What the shown class means: nothing for a password meeting no
      criterion (the empty one in particular), weak for one or two, medium
      for three, strong for all four. */
  lemma ClassifyMeaning(password: string)
    ensures var shown := Classify(|Criteria(password)|, password);
      && (shown == NoStrength <==>
            Utf16Length(password) < 8 && !(HasLower(password) && HasUpper(password)) &&
            !HasDigit(password) && !HasSymbol(password))
      && (shown == Weak <==> 1 <= |Criteria(password)| <= 2)
      && (shown == Medium <==> |Criteria(password)| == 3)
      && (shown == Strong <==>
            Utf16Length(password) >= 8 && HasLower(password) && HasUpper(password) &&
            HasDigit(password) && HasSymbol(password))
      && (password == [] ==> shown == NoStrength)
  {
    CriteriaCount(password);
    if password == [] {
      assert !HasLower(password) && !HasDigit(password) && !HasSymbol(password);
    }
  }

  /** Typing more never loses a point: every criterion a password meets, any
      longer password starting with it meets too. */
  lemma CriteriaGrow(p: string, q: string)
    ensures Criteria(p) <= Criteria(p + q)
  {
    Utf16LengthAppend(p, q);
    if HasLower(p) { var i :| 0 <= i < |p| && IsLowerAscii(p[i]); assert (p + q)[i] == p[i]; }
    if HasUpper(p) { var i :| 0 <= i < |p| && IsUpperAscii(p[i]); assert (p + q)[i] == p[i]; }
    if HasDigit(p) { var i :| 0 <= i < |p| && IsDigitAscii(p[i]); assert (p + q)[i] == p[i]; }
    if HasSymbol(p) {
      var i :| 0 <= i < |p| && !IsLowerAscii(p[i]) && !IsUpperAscii(p[i]) && !IsDigitAscii(p[i]);
      assert (p + q)[i] == p[i];
    }
  }

  lemma {:induction false} Utf16LengthAppend(p: string, q: string)
    ensures Utf16Length(p + q) == Utf16Length(p) + Utf16Length(q)
  {
    if p != [] {
      assert (p + q)[0] == p[0] && (p + q)[1..] == p[1..] + q;
      Utf16LengthAppend(p[1..], q);
    } else {
      assert p + q == q;
    }
  }

  // ---------------------------------------------------------------------
  // The one-time-code boxes
  // ---------------------------------------------------------------------

  /** The boxes' values joined in document order. */
  function Concat(values: seq<string>): string
  {
    if values == [] then [] else Concat(values[..|values| - 1]) + values[|values| - 1]
  }

  /** `getOTPValue()` */
  method GetOtpValue(inputs: array<string>) returns (otp: string)
    ensures otp == Concat(inputs[..])
  {
    otp := "";
    var i := 0;
    while i < inputs.Length
      invariant 0 <= i <= inputs.Length
      invariant otp == Concat(inputs[..i])
    {
      assert inputs[..i + 1][..i] == inputs[..i];
      otp := otp + inputs[i];
      i := i + 1;
    }
    assert inputs[..inputs.Length] == inputs[..];
  }

  /** The code's length is the total length of the boxes. */
  lemma {:induction false} ConcatLength(values: seq<string>)
    ensures |Concat(values)| == TotalLength(values)
  {
    if values != [] {
      ConcatLength(values[..|values| - 1]);
    }
  }

  function TotalLength(values: seq<string>): nat
  {
    if values == [] then 0 else TotalLength(values[..|values| - 1]) + |values[|values| - 1]|
  }

  /** The paste handler: the first six characters of the clipboard go one per
      box from the first, characters without a box are dropped, and the box
      after the last pasted character (if there is one) gets the focus. */
  method Paste(inputs: array<string>, clipboard: string) returns (focus: Option<nat>)
    modifies inputs
    ensures var pasted := clipboard[..Min(6, |clipboard|)];
      forall i :: 0 <= i < inputs.Length ==>
        inputs[i] == (if i < |pasted| then [pasted[i]] else old(inputs[i]))
    ensures focus == (if Min(6, |clipboard|) < inputs.Length then Some(Min(6, |clipboard|)) else None)
  {
    var pasted := clipboard[..Min(6, |clipboard|)];
    var i := 0;
    while i < |pasted|
      invariant 0 <= i <= |pasted|
      invariant forall j :: 0 <= j < inputs.Length ==>
        inputs[j] == (if j < i then [pasted[j]] else old(inputs[j]))
    {
      if i < inputs.Length {
        inputs[i] := [pasted[i]];
      }
      i := i + 1;
    }
    if |pasted| < inputs.Length {
      focus := Some(|pasted|);
    } else {
      focus := None;
    }
  }

  /** Boxes holding one character each read back as those characters: after
      pasting a code into as many boxes as it has characters (six), reading
      the boxes gives the code back. */
  lemma {:induction false} ReadBackPasted(values: seq<string>, code: string)
    requires |values| <= |code|
    requires forall i :: 0 <= i < |values| ==> values[i] == [code[i]]
    ensures Concat(values) == code[..|values|]
  {
    if values != [] {
      var n := |values|;
      ReadBackPasted(values[..n - 1], code);
      assert code[..n] == code[..n - 1] + [code[n - 1]];
    }
  }

  // ---------------------------------------------------------------------
  // The stored session
  // ---------------------------------------------------------------------

  /** The browser's local storage: `getItem` of a missing key is null. */
  type Storage = map<string, string>

  /** A stored session; `user` is the stored JSON text. */
  datatype Session = Session(token: string, user: string)

  /** `isAuthenticated()`: a token is stored and is not the empty string. */
  predicate IsAuthenticated(st: Storage)
  {
    "token" in st && st["token"] != ""
  }

  /** `getUserSession()`: both a token and a user are stored and neither is
      the empty string. */
  function GetUserSession(st: Storage): Option<Session>
  {
    if "token" in st && st["token"] != "" && "user" in st && st["user"] != "" then
      Some(Session(st["token"], st["user"]))
    else None
  }

  /** `saveUserSession(token, user)` with the user already serialised. */
  function SaveUserSession(st: Storage, token: string, user: string): Storage
  {
    st["token" := token]["user" := user]
  }

  /** `clearUserSession()` */
  function ClearUserSession(st: Storage): Storage
  {
    st - {"token", "user"}
  }

  /** A session implies being signed in, but not the other way round: a
      token without a user counts as signed in with no session. */
  lemma SessionMeansAuthenticated(st: Storage)
    ensures GetUserSession(st).Some? ==> IsAuthenticated(st)
    ensures GetUserSession(st).Some? <==> IsAuthenticated(st) && "user" in st && st["user"] != ""
    ensures IsAuthenticated(map["token" := "t"]) && GetUserSession(map["token" := "t"]).None?
  {
  }

  /** Saving then reading gives the saved session back (for non-empty
      values), and clearing signs out while keeping the other keys. */
  lemma SessionRoundTrip(st: Storage, token: string, user: string)
    ensures IsAuthenticated(SaveUserSession(st, token, user)) <==> token != ""
    ensures GetUserSession(SaveUserSession(st, token, user)) ==
      (if token != "" && user != "" then Some(Session(token, user)) else None)
    ensures !IsAuthenticated(ClearUserSession(st)) && GetUserSession(ClearUserSession(st)).None?
    ensures forall k :: k in st && k != "token" && k != "user" ==>
      k in ClearUserSession(st) && ClearUserSession(st)[k] == st[k]
  {
  }
}
