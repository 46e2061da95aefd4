/**
 * The input validators of app.js written as predicates over strings: `reNum`, `rePhone`,
 * `reMail`, `reYear`, the room-number pattern, and the apartment-name/room split that the
 * building-name step performs with a regular expression match.
 */
module Validators {
  import opened Wrappers
  import opened JsString

  /** `\d`: an ASCII digit (the `u` flag does not widen it). */
  predicate IsDigit(c: char) {
    '0' <= c <= '9'
  }

  predicate AllDigits(s: string) {
    forall i | 0 <= i < |s| :: IsDigit(s[i])
  }

  /** The length of the longest run of digits at the start of `s`. */
  function LeadingDigits(s: string): (n: nat)
    ensures n <= |s|
    ensures AllDigits(s[..n]) && forall k | 0 <= k < n :: IsDigit(s[k])
    ensures n == |s| || !IsDigit(s[n])
  {
    if |s| > 0 && IsDigit(s[0]) then
      var n := LeadingDigits(s[1..]);
      1 + n
    else 0
  }

  /** A digit prefix that stops at `i` is the longest one. */
  lemma LeadingDigitsAt(s: string, i: nat)
    requires i <= |s| && AllDigits(s[..i])
    requires i == |s| || !IsDigit(s[i])
    ensures LeadingDigits(s) == i
  {
    forall k | 0 <= k < i ensures IsDigit(s[k]) {
      assert s[..i][k] == s[k];
    }
  }

  // ---- reNum = /^\d{1,4}(\.\d{1,2})?$/ ---------------------------------------------------

  /** `reNum` as a left-to-right scan: 1 to 4 digits, then either the end or `.` and 1 to 2 digits. */
  predicate IsNum(s: string) {
    var k := LeadingDigits(s);
    1 <= k <= 4 && (k == |s| || (s[k] == '.' && 2 <= |s| - k <= 3 && AllDigits(s[k + 1..])))
  }

  /** `reNum` read off the pattern: an integer part, optionally a dot and a fractional part. */
  ghost predicate NumGrammar(s: string) {
    (1 <= |s| <= 4 && AllDigits(s))
    || (exists i | 1 <= i <= 4 && i < |s| ::
          AllDigits(s[..i]) && s[i] == '.' && 1 <= |s| - i - 1 <= 2 && AllDigits(s[i + 1..]))
  }

  /** The scan accepts exactly the strings of the pattern. */
  lemma NumScanMatchesGrammar(s: string)
    ensures IsNum(s) <==> NumGrammar(s)
  {
    var k := LeadingDigits(s);
    if IsNum(s) && k < |s| {
      assert AllDigits(s[..k]) && s[k] == '.';
    }
    if NumGrammar(s) {
      if 1 <= |s| <= 4 && AllDigits(s) {
        assert s[..|s|] == s;
        LeadingDigitsAt(s, |s|);
      } else {
        var i :| 1 <= i <= 4 && i < |s| && AllDigits(s[..i]) && s[i] == '.'
                 && 1 <= |s| - i - 1 <= 2 && AllDigits(s[i + 1..]);
        LeadingDigitsAt(s, i);
      }
    }
  }

  // ---- rePhone = /^0\d{9,10}$/ ------------------------------------------------------------

  /** `rePhone`: a `0` followed by 9 or 10 more digits, with no separators. */
  predicate IsPhone(s: string) {
    10 <= |s| <= 11 && s[0] == '0' && AllDigits(s)
  }

  /** `rePhone` read off the pattern: the character `0`, then a run of 9 or 10 digits. */
  lemma PhoneIsZeroThenDigits(s: string)
    ensures IsPhone(s) <==> exists d | s == ['0'] + d :: 9 <= |d| <= 10 && AllDigits(d)
  {
    if IsPhone(s) {
      var d := s[1..];
      assert s == ['0'] + d;
      assert AllDigits(d) by {
        forall k | 0 <= k < |d| ensures IsDigit(d[k]) { assert d[k] == s[k + 1]; }
      }
    }
    if exists d | s == ['0'] + d :: 9 <= |d| <= 10 && AllDigits(d) {
      var d :| s == ['0'] + d && 9 <= |d| <= 10 && AllDigits(d);
      forall k | 0 <= k < |s| ensures IsDigit(s[k]) {
        if k > 0 { assert s[k] == d[k - 1]; }
      }
    }
  }

  // ---- reMail = /^[^\s@]+@[^\s@]+\.[^\s@]+$/ -----------------------------------------------

  /** A character of the class `[^\s@]`. */
  predicate IsMailChar(c: char) {
    !IsSpace(c) && c != '@'
  }

  predicate AllMailChars(s: string) {
    forall i | 0 <= i < |s| :: IsMailChar(s[i])
  }

  /** The position of the first occurrence of `c` in `s`, if any. */
  function IndexOf(s: string, c: char): (r: Option<nat>)
    ensures r.None? ==> c !in s
    ensures r.Some? ==> r.value < |s| && s[r.value] == c && c !in s[..r.value]
  {
    if s == [] then None
    else if s[0] == c then Some(0)
    else
      match IndexOf(s[1..], c)
      case None => None
      case Some(i) =>
        assert s[..i + 1] == [s[0]] + s[1..][..i];
        Some(i + 1)
  }

  /**
   * `reMail` as a scan: no white space, exactly one `@` that is not the first character,
   * and a `.` in the domain part that is neither its first nor the string's last character.
   */
  predicate IsMail(s: string) {
    NoSpace(s) &&
    match IndexOf(s, '@')
    case None => false
    case Some(at) => 1 <= at && at + 4 <= |s| && '@' !in s[at + 1..] && '.' in s[at + 2..|s| - 1]
  }

  /** `reMail` read off the pattern: a local part, `@`, a domain part, `.`, a final label. */
  ghost predicate MailGrammar(s: string) {
    exists i: nat, j: nat :: MailPartsAt(s, i, j)
  }

  /** No character of `s[lo..hi]` is `c`. */
  lemma NotInSlice(s: string, c: char, lo: nat, hi: nat)
    requires lo <= hi <= |s| && c !in s[lo..hi]
    ensures forall k | lo <= k < hi :: s[k] != c
  {
    forall k | lo <= k < hi ensures s[k] != c {
      assert s[lo..hi][k - lo] == s[k];
    }
  }

  /** A stretch of `s` with no white space and no `@` is made of `[^\s@]` characters. */
  lemma MailCharsBetween(s: string, lo: nat, hi: nat)
    requires lo <= hi <= |s| && NoSpace(s)
    requires forall k | lo <= k < hi :: s[k] != '@'
    ensures AllMailChars(s[lo..hi])
  {
    forall k | 0 <= k < hi - lo ensures IsMailChar(s[lo..hi][k]) {
      assert s[lo..hi][k] == s[lo + k];
    }
  }

  /** A character inside a stretch of `[^\s@]` characters is one itself. */
  lemma MailCharAt(s: string, lo: nat, hi: nat, k: nat)
    requires lo <= k < hi <= |s| && AllMailChars(s[lo..hi])
    ensures IsMailChar(s[k])
  {
    assert s[lo..hi][k - lo] == s[k];
  }

  /** Whatever the scan accepts, the pattern accepts. */
  lemma MailScanSound(s: string)
    requires IsMail(s)
    ensures MailGrammar(s)
  {
    var at := IndexOf(s, '@').value;
    var hi := |s| - 1;
    var lo := at + 2;
    var u := s[lo..hi];
    var d :| 0 <= d < |u| && u[d] == '.';
    var j := lo + d;
    assert u[d] == s[j];
    NotInSlice(s, '@', 0, at);
    assert s[at + 1..] == s[at + 1..|s|];
    NotInSlice(s, '@', at + 1, |s|);
    MailCharsBetween(s, 0, at);
    MailCharsBetween(s, at + 1, j);
    MailCharsBetween(s, j + 1, |s|);
    assert s[j + 1..] == s[j + 1..|s|];
    assert s[..at] == s[0..at];
    assert MailPartsAt(s, at, j);
  }

  /** The three parts of a pattern match, with the `@` at `i` and the `.` at `j`. */
  ghost predicate MailPartsAt(s: string, i: nat, j: nat) {
    0 < i && i + 1 < j < |s| - 1 && s[i] == '@' && s[j] == '.'
    && AllMailChars(s[..i]) && AllMailChars(s[i + 1..j]) && AllMailChars(s[j + 1..])
  }

  /** Every character of a pattern match other than its `@` is a `[^\s@]` character or its `.`. */
  lemma MailPartsChars(s: string, i: nat, j: nat)
    requires MailPartsAt(s, i, j)
    ensures forall k | 0 <= k < |s| && k != i :: IsMailChar(s[k])
  {
    var n := |s|;
    assert s[..i] == s[0..i];
    assert s[j + 1..] == s[j + 1..n];
    forall k | 0 <= k < n && k != i ensures IsMailChar(s[k]) {
      if k < i { MailCharAt(s, 0, i, k); }
      else if k < j { MailCharAt(s, i + 1, j, k); }
      else if k > j { MailCharAt(s, j + 1, n, k); }
    }
  }

  /** Whatever the pattern accepts, the scan accepts. */
  lemma MailScanComplete(s: string)
    requires MailGrammar(s)
    ensures IsMail(s)
  {
    var i: nat, j: nat :| MailPartsAt(s, i, j);
    var n := |s|;
    MailPartsChars(s, i, j);
    assert NoSpace(s);
    assert '@' !in s[..i] by {
      forall k | 0 <= k < i ensures s[..i][k] != '@' {
        assert s[..i][k] == s[k];
      }
    }
    IndexOfAt(s, '@', i);
    var after := i + 1;
    assert '@' !in s[after..] by {
      forall k | 0 <= k < n - after ensures s[after..][k] != '@' {
        assert s[after..][k] == s[after + k];
      }
    }
    var lo, hi := i + 2, n - 1;
    assert s[lo..hi][j - lo] == '.';
  }

  /** The scan accepts exactly the strings of the pattern. */
  lemma MailScanMatchesGrammar(s: string)
    ensures IsMail(s) <==> MailGrammar(s)
  {
    if IsMail(s) { MailScanSound(s); }
    if MailGrammar(s) { MailScanComplete(s); }
  }

  /** An occurrence with none before it is the first one. */
  lemma IndexOfAt(s: string, c: char, i: nat)
    requires i < |s| && s[i] == c && c !in s[..i]
    ensures IndexOf(s, c) == Some(i)
  {
  }

  // ---- reYear = /^(19\d{2}|20\d{2}|築\d{1,2}年)$/ -------------------------------------------

  /** The four-digit alternatives `19dd` and `20dd`. */
  predicate IsCalendarYear(s: string) {
    |s| == 4 && AllDigits(s[2..]) && ((s[0] == '1' && s[1] == '9') || (s[0] == '2' && s[1] == '0'))
  }

  /** The age alternative `築` + 1 or 2 digits + `年`. */
  predicate IsBuildingAge(s: string) {
    3 <= |s| <= 4 && s[0] == '築' && s[|s| - 1] == '年' && AllDigits(s[1..|s| - 1])
  }

  /** `reYear`. */
  predicate IsYear(s: string) {
    IsCalendarYear(s) || IsBuildingAge(s)
  }

  /** `/^築/`. */
  predicate StartsWithChiku(s: string) {
    |s| > 0 && s[0] == '築'
  }

  /** Among accepted inputs, a leading `築` singles out the age form, and the two forms never overlap. */
  lemma YearFormsExclusive(s: string)
    requires IsYear(s)
    ensures StartsWithChiku(s) <==> IsBuildingAge(s)
    ensures !(IsCalendarYear(s) && IsBuildingAge(s))
  {
  }

  // ---- room number /^[0-9A-Za-z\-]+(号室)?$/ -------------------------------------------------

  /** A character of `[0-9A-Za-z\-]`. */
  predicate IsRoomChar(c: char) {
    IsDigit(c) || ('A' <= c <= 'Z') || ('a' <= c <= 'z') || c == '-'
  }

  predicate AllRoomChars(s: string) {
    forall i | 0 <= i < |s| :: IsRoomChar(s[i])
  }

  /** The room-number pattern: room characters, optionally followed by the marker `号室`. */
  predicate IsRoom(s: string) {
    (|s| >= 1 && AllRoomChars(s))
    || (|s| >= 3 && s[|s| - 2] == '号' && s[|s| - 1] == '室' && AllRoomChars(s[..|s| - 2]))
  }

  /** A room token never contains white space, so removing white space from it changes nothing. */
  lemma RoomHasNoSpace(s: string)
    requires IsRoom(s)
    ensures NoSpace(s) && RemoveSpaces(s) == s
  {
    if !AllRoomChars(s) {
      forall i | 0 <= i < |s| ensures !IsSpace(s[i]) {
        if i < |s| - 2 { assert s[..|s| - 2][i] == s[i]; }
      }
    }
    RemoveSpacesOfNoSpace(s);
  }

  // ---- the building-name split /^(.+?)\s*([0-9A-Za-z\-]+(?:号室)?)?$/u --------------------

  /** What may follow the lazy group once `\s*` has consumed the white space: nothing, or a room token. */
  predicate RoomTail(u: string) {
    u == [] || IsRoom(u)
  }

  /**
   * The lazy group can end after `k` characters: they hold no line terminator (which `.`
   * refuses), and what follows them, with its leading white space dropped, is a room tail.
   */
  predicate SplitsAt(t: string, k: nat) {
    1 <= k <= |t| && NoLineTerminator(t[..k]) && RoomTail(TrimStart(t[k..]))
  }

  /** The backtracking search of the lazy group: the first length from `k` on that lets the match finish. */
  function FindSplit(t: string, k: nat): Option<nat>
    requires 1 <= k
    decreases |t| + 1 - k
  {
    if k > |t| then None
    else if SplitsAt(t, k) then Some(k)
    else FindSplit(t, k + 1)
  }

  /** The search finds the first length from `k` on that lets the match finish, or reports that none does. */
  lemma {:induction false} FindSplitIsFirst(t: string, k: nat)
    requires 1 <= k
    decreases |t| + 1 - k
    ensures var r := FindSplit(t, k);
      && (r.Some? ==> SplitsAt(t, r.value) && forall j | k <= j < r.value :: !SplitsAt(t, j))
      && (r.None? ==> forall j | k <= j :: !SplitsAt(t, j))
  {
    if k > |t| {
      assert FindSplit(t, k) == None;
      forall j | k <= j ensures !SplitsAt(t, j) {}
    } else if !SplitsAt(t, k) {
      FindSplitIsFirst(t, k + 1);
      assert FindSplit(t, k) == FindSplit(t, k + 1);
    }
  }

  /**
   * What the building-name step stores: the name `(m?.[1] || t).trim()` and, when the second
   * group took part in the match, the room `m[2].replace(/\s+/g, "")`.
   */
  function SplitAptName(t: string): (r: (string, Option<string>))
    ensures r.1.Some? ==> IsRoom(r.1.value)
  {
    FindSplitIsFirst(t, 1);
    match FindSplit(t, 1)
    case None => (Trim(t), None)
    case Some(k) =>
      var rest := TrimStart(t[k..]);
      if rest == [] then (Trim(t[..k]), None)
      else
        RoomHasNoSpace(rest);
        (Trim(t[..k]), Some(RemoveSpaces(rest)))
  }

  /** Dropping one more leading space before the remainder does not change what `\s*` leaves. */
  lemma TrimStartSkipsSpace(t: string, k: nat)
    requires 1 <= k <= |t| && IsSpace(t[k - 1])
    ensures TrimStart(t[k - 1..]) == TrimStart(t[k..])
  {
    assert t[k - 1..][1..] == t[k..];
  }

  /** The shortest prefix of a trimmed line after which the match finishes does not end in white space. */
  lemma ShortestNameIsTrimmed(t: string, k: nat)
    requires IsTrimmed(t) && SplitsAt(t, k)
    requires forall j | 1 <= j < k :: !SplitsAt(t, j)
    ensures IsTrimmed(t[..k])
  {
    if IsSpace(t[k - 1]) {
      TrimStartSkipsSpace(t, k);
      assert t[..k - 1] == t[..k][..k - 1];
      assert SplitsAt(t, k - 1);
    }
  }

  /** Only the end of a trimmed line is followed by nothing but white space. */
  lemma SpaceTailIsEmpty(t: string, k: nat)
    requires IsTrimmed(t) && 1 <= k <= |t| && TrimStart(t[k..]) == []
    ensures k == |t|
  {
    var u := t[k..];
    assert AllSpace(u) by {
      assert u[..LeadingSpaces(u)] == u;
    }
  }

  /** Where the lazy group of a trimmed line ends at `k`: the name, the white space and the room. */
  lemma SplitAtShape(t: string, k: nat)
    requires IsTrimmed(t) && SplitsAt(t, k)
    requires forall j | 1 <= j < k :: !SplitsAt(t, j)
    ensures var rest := TrimStart(t[k..]);
      && Trim(t[..k]) == t[..k]
      && (rest == [] ==> k == |t|)
      && (rest != [] ==>
            && RemoveSpaces(rest) == rest
            && k + |rest| <= |t| && rest == t[|t| - |rest|..]
            && AllSpace(t[k..|t| - |rest|]))
  {
    var n := LeadingSpaces(t[k..]);
    var rest := TrimStart(t[k..]);
    assert rest == t[k + n..];
    ShortestNameIsTrimmed(t, k);
    TrimOfTrimmed(t[..k]);
    if rest == [] {
      SpaceTailIsEmpty(t, k);
    } else {
      RoomHasNoSpace(rest);
      assert t[k..k + n] == t[k..][..n];
    }
  }

  /**
   * On trimmed input the split either keeps the whole line as the name, or cuts it into a
   * non-empty name and the rest of the line, which is white space followed by the room token
   * (so the room also ends the line).
   */
  lemma SplitAptNameShape(t: string)
    requires IsTrimmed(t)
    ensures var (name, room) := SplitAptName(t);
      && (room.None? ==> name == t)
      && (room.Some? ==>
            && name != [] && |name| + |room.value| <= |t|
            && t[..|name|] == name && TrimStart(t[|name|..]) == room.value
            && t[|t| - |room.value|..] == room.value
            && NoLineTerminator(name))
  {
    FindSplitIsFirst(t, 1);
    match FindSplit(t, 1)
    case None =>
      TrimOfTrimmed(t);
      assert SplitAptName(t) == (t, None);
    case Some(k) =>
      SplitAtShape(t, k);
      var name, rest := t[..k], TrimStart(t[k..]);
      assert NoLineTerminator(name);
      if rest == [] {
        assert SplitAptName(t) == (name, None);
        assert name == t;
      } else {
        assert SplitAptName(t) == (name, Some(rest));
        assert t[..|name|] == name && TrimStart(t[|name|..]) == rest;
      }
  }

  /** When the line is cut, the name is the shortest prefix after which the match can finish. */
  lemma SplitAptNameShortest(t: string)
    requires IsTrimmed(t)
    ensures var (name, room) := SplitAptName(t);
      room.Some? ==> forall j | 1 <= j < |name| :: !SplitsAt(t, j)
  {
    FindSplitIsFirst(t, 1);
    match FindSplit(t, 1)
    case None =>
    case Some(k) =>
      SplitAtShape(t, k);
      assert |SplitAptName(t).0| == k;
  }

  /** An all-ASCII name such as `Tower` is cut after its first character: `T` / `ower`. */
  lemma AsciiNameIsCut(t: string)
    requires |t| >= 2 && AllRoomChars(t)
    ensures SplitAptName(t) == ([t[0]], Some(t[1..]))
  {
    var tail := t[1..];
    assert AllRoomChars(tail) by {
      forall i | 0 <= i < |tail| ensures IsRoomChar(tail[i]) {
        assert tail[i] == t[i + 1];
      }
    }
    assert !IsSpace(tail[0]);
    assert TrimStart(tail) == tail;
    assert t[..1] == [t[0]];
    assert SplitsAt(t, 1);
    assert FindSplit(t, 1) == Some(1);
    RoomHasNoSpace(tail);
    TrimOfTrimmed(t[..1]);
  }

  /** A name, one space and a room token split back into that name and that room. */
  lemma NameThenRoom(n: string, m: string)
    requires n != [] && IsTrimmed(n) && NoLineTerminator(n) && IsRoom(m)
    ensures SplitAptName(n + " " + m) == (n, Some(m))
  {
    var t := n + " " + m;
    RoomHasNoSpace(m);
    assert t[..|n|] == n;
    assert TrimStart(t[|n|..]) == m by {
      assert t[|n|..][1..] == m;
      assert LeadingSpaces(t[|n|..][1..]) == 0;
    }
    assert SplitsAt(t, |n|);
    forall j | 1 <= j < |n| ensures !SplitsAt(t, j) {
      var l := LeadingSpaces(t[j..]);
      var rest := TrimStart(t[j..]);
      assert rest == t[j + l..];
      assert rest[|n| - j - l] == ' ';
      if IsRoom(rest) { RoomHasNoSpace(rest); }
    }
    FindSplitIsFirst(t, 1);
    TrimOfTrimmed(n);
  }

  /** Example: `Sunshine Tower 305` splits into the name `Sunshine Tower` and the room `305`. */
  lemma SunshineTowerSplit()
    ensures SplitAptName("Sunshine Tower 305") == ("Sunshine Tower", Some("305"))
  {
    assert IsRoom("305");
    assert "Sunshine Tower" + " " + "305" == "Sunshine Tower 305";
    NameThenRoom("Sunshine Tower", "305");
  }
}
