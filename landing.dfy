/**
 * The first-run page: the user either chooses a password, which is checked and
 * then hashed into the settings file and the browser storage, or opts out of a
 * password after a confirmation dialog.
 */
module Landing {
  import opened Wrappers
  import opened Config

  // ---------------------------------------------------------------------------
  // The password-acceptance decision
  // ---------------------------------------------------------------------------

  /** The outcome of comparing the two password inputs. */
  datatype Verdict = TooLong | TooShort | Mismatch | CommonPassword | Accepted

  const MaxLength := 64
  const MinLength := 8

  /**
   * `comparePasswords`: the length of the first input is checked against the
   * maximum, then the minimum; then the inputs must match and the password must
   * not be on the common-password list.
   */
  function Compare(password1: string, password2: string, isCommon: string -> bool): (v: Verdict)
    ensures v == TooLong <==> |password1| > MaxLength
    ensures v == TooShort <==> |password1| < MinLength
    ensures v == Mismatch <==> MinLength <= |password1| <= MaxLength && password1 != password2
    ensures v == CommonPassword <==> MinLength <= |password1| <= MaxLength && password1 == password2 && isCommon(password1)
    ensures v == Accepted <==> MinLength <= |password1| <= MaxLength && password1 == password2 && !isCommon(password1)
  {
    if |password1| > MaxLength then TooLong
    else if |password1| < MinLength then TooShort
    else if password1 == password2 then
      if !isCommon(password1) then Accepted else CommonPassword
    else Mismatch
  }

  /** The length limits are checked on the first input alone, before the inputs are compared. */
  lemma LengthBeforeMatch(password1: string, password2: string, other: string, isCommon: string -> bool)
    requires |password1| < MinLength || |password1| > MaxLength
    ensures Compare(password1, password2, isCommon) == Compare(password1, other, isCommon)
  {
  }

  const Red := "#CC001B"
  const Green := "#28A443"

  /** The message shown under the inputs for each verdict. */
  function Message(v: Verdict): string
  {
    match v
    case TooLong => "Maximum password length is 64 characters!"
    case TooShort => "Minimum password length is 8 characters!"
    case Mismatch => "Passwords don't match! Try again!"
    case CommonPassword => "This password is on the list of the top 1000 most common passwords. Please choose a more secure password!"
    case Accepted => "Passwords match! Please wait!"
  }

  /** Each verdict has its own message. */
  lemma MessageIdentifiesVerdict(v: Verdict, w: Verdict)
    ensures Message(v) == Message(w) ==> v == w
  {
  }

  /** Only an accepted password is reported in green; every rejection is red. */
  function MessageColor(v: Verdict): (c: string)
    ensures c == Green <==> v == Accepted
  {
    if v == Accepted then Green else Red
  }

  // ---------------------------------------------------------------------------
  // The browser storage item and the settings file
  // ---------------------------------------------------------------------------

  /** The JSON object kept in the `storage` item; `{}` has every field absent. */
  datatype Storage = Storage(requirePassword: Option<bool>, password: Option<string>, key: Option<string>)

  const EmptyStorage := Storage(None, None, None)

  /** Page load: an empty object is stored when no storage item exists yet. */
  function InitialStorage(item: Option<Storage>): (r: Option<Storage>)
    ensures r.Some?
    ensures item.Some? ==> r == item
    ensures item.None? ==> r == Some(EmptyStorage)
  {
    if item.None? then Some(EmptyStorage) else item
  }

  /** Initialising the storage twice is initialising it once. */
  lemma InitialStorageIdempotent(item: Option<Storage>)
    ensures InitialStorage(InitialStorage(item)) == InitialStorage(item)
  {
  }

  /** The storage item repeats the security block of the settings file. */
  predicate Mirrors(sec: Security, st: Storage)
  {
    && st.requirePassword == Some(sec.requirePassword == True)
    && st.password == sec.password
    && st.key == sec.key
  }

  /** The settings after a password was chosen: required, with its hash and a fresh key. */
  function WithPassword(s: SettingsFile, hashed: string, key: string): (r: SettingsFile)
    ensures r.security == Security(True, Some(hashed), Some(key))
    ensures r.settings == s.settings && r.statistics == s.statistics && r.window == s.window
    ensures r.globalShortcuts == s.globalShortcuts
  {
    s.(security := Security(True, Some(hashed), Some(key)))
  }

  /** The settings after opting out: not required; the stored hash and key are left as they were. */
  function WithoutPassword(s: SettingsFile): (r: SettingsFile)
    ensures r.security.requirePassword == False
    ensures r.security.password == s.security.password && r.security.key == s.security.key
    ensures r.settings == s.settings && r.statistics == s.statistics && r.window == s.window
    ensures r.globalShortcuts == s.globalShortcuts
  {
    s.(security := s.security.(requirePassword := False))
  }

  /** Zero every element of a buffer. */
  method ZeroFill(buffer: array<char>)
    modifies buffer
    ensures forall i :: 0 <= i < buffer.Length ==> buffer[i] == 0 as char
  {
    var i := 0;
    while i < buffer.Length
      invariant 0 <= i <= buffer.Length
      invariant forall j :: 0 <= j < i ==> buffer[j] == 0 as char
    {
      buffer[i] := 0 as char;
      i := i + 1;
    }
  }

  /** A buffer holding a copy of the characters of s. */
  method BufferFrom(s: string) returns (buffer: array<char>)
    ensures fresh(buffer) && buffer[..] == s
  {
    buffer := new char[|s|](i requires 0 <= i < |s| => s[i]);
  }

  /** The landing page's view of the settings, the settings file, the storage item and the message. */
  class LandingPage {
    var settings: SettingsFile
    var disk: SettingsFile
    var storage: Option<Storage>
    var text: string
    var color: string

    /** Page load: read the settings file and make sure the storage item exists. */
    constructor (disk0: SettingsFile, storage0: Option<Storage>)
      ensures settings == disk0 && disk == disk0
      ensures storage == InitialStorage(storage0)
      ensures text == "" && color == ""
    {
      settings, disk := disk0, disk0;
      text, color := "", "";
      storage := storage0;
      if storage0.None? {
        storage := Some(EmptyStorage);
      }
    }

    /**
     * `comparePasswords`: show the verdict; on acceptance zero both input buffers
     * and store the password's hash with a fresh key.
     */
    method ComparePasswords(password1: string, password2: string, isCommon: string -> bool, hashed: string, key: string)
      returns (v: Verdict, buffer1: array<char>, buffer2: array<char>)
      modifies this
      ensures v == Compare(password1, password2, isCommon)
      ensures text == Message(v) && color == MessageColor(v)
      ensures fresh(buffer1) && fresh(buffer2)
      ensures v == Accepted ==>
                (forall i :: 0 <= i < buffer1.Length ==> buffer1[i] == 0 as char)
                && (forall i :: 0 <= i < buffer2.Length ==> buffer2[i] == 0 as char)
      ensures v != Accepted ==> buffer1[..] == password1 && buffer2[..] == password2
      ensures v == Accepted ==> settings == WithPassword(old(disk), hashed, key)
      ensures v == Accepted && old(storage).Some? ==> disk == settings && storage.Some? && Mirrors(settings.security, storage.value)
      ensures v == Accepted && old(storage).None? ==> disk == old(disk) && storage == old(storage)
      ensures v != Accepted ==> settings == old(settings) && disk == old(disk) && storage == old(storage)
    {
      buffer1 := BufferFrom(password1);
      buffer2 := BufferFrom(password2);
      if |password1| > MaxLength {
        v := TooLong;
      } else if |password1| < MinLength {
        v := TooShort;
      } else if password1 == password2 {
        v := if !isCommon(password1) then Accepted else CommonPassword;
      } else {
        v := Mismatch;
      }
      color := MessageColor(v);
      text := Message(v);
      if v == Accepted {
        ZeroFill(buffer1);
        ZeroFill(buffer2);
        var _ := HashPasswords(hashed, key);
      }
    }

    /**
     * `hashPasswords`: re-read the settings file, mark a password as required with
     * its hash and a freshly generated key, mirror the three values into the
     * storage item and write both back. Without a storage item the handler throws
     * after changing the settings in memory and before writing anything.
     */
    method HashPasswords(hashed: string, key: string) returns (ok: bool)
      modifies this`settings, this`disk, this`storage
      ensures ok == old(storage).Some?
      ensures settings == WithPassword(old(disk), hashed, key)
      ensures ok ==> disk == settings && storage.Some? && Mirrors(settings.security, storage.value)
      ensures !ok ==> disk == old(disk) && storage == old(storage)
    {
      settings := disk;
      settings := settings.(security := settings.security.(requirePassword := True));
      settings := settings.(security := settings.security.(password := Some(hashed)));
      settings := settings.(security := settings.security.(key := Some(key)));
      if storage.None? {
        return false;
      }
      var st := storage.value;
      st := st.(requirePassword := Some(settings.security.requirePassword == True));
      st := st.(password := Some(hashed));
      st := st.(key := settings.security.key);
      disk := settings;
      storage := Some(st);
      ok := true;
    }

    /**
     * `noPassword`: after "Yes" (response 0) in the confirmation dialog, mark the
     * password as not required in the settings file and the storage item; the
     * storage also receives a generated key and its salt. "No" changes nothing.
     */
    method NoPassword(response: int, salt: string, generatedKey: string) returns (ok: bool)
      modifies this`settings, this`disk, this`storage, this`text, this`color
      ensures response != 0 ==> !ok && settings == old(settings) && disk == old(disk) && storage == old(storage)
                                && text == old(text) && color == old(color)
      ensures response == 0 ==> ok == old(storage).Some? && settings == WithoutPassword(old(disk))
                                && text == "Please wait!" && color == Green
      ensures response == 0 && ok ==>
                disk == settings
                && storage == Some(old(storage).value.(requirePassword := Some(false), password := Some(generatedKey), key := Some(salt)))
      ensures response == 0 && !ok ==> disk == old(disk) && storage == old(storage)
    {
      ok := false;
      if response == 0 {
        color := Green;
        text := "Please wait!";
        settings := disk;
        settings := settings.(security := settings.security.(requirePassword := False));
        if storage.None? {
          return;
        }
        var st := storage.value;
        st := st.(requirePassword := Some(settings.security.requirePassword == True));
        st := st.(password := Some(generatedKey));
        st := st.(key := Some(salt));
        storage := Some(st);
        disk := settings;
        ok := true;
      }
    }
  }

  /**
   * After opting out, the storage item no longer mirrors the settings file: the
   * requirement agrees, but the storage carries a generated key where the file
   * keeps its earlier hash and key.
   */
  lemma OptOutStorageDiverges(s: SettingsFile, st: Storage, salt: string, generatedKey: string)
    requires s.security.password == None
    ensures var st' := st.(requirePassword := Some(false), password := Some(generatedKey), key := Some(salt));
            st'.requirePassword == Some(WithoutPassword(s).security.requirePassword == True)
            && !Mirrors(WithoutPassword(s).security, st')
  {
  }
}
