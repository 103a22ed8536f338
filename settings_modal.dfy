/**
 * The editing logic of the settings dialog (src/components/SettingsModal.tsx):
 * how an input event becomes a value of the local copy of the settings, the
 * clamp applied to the JPEG quality when its field loses focus, and the set
 * of changed keys that Save hands to the caller.
 *
 * Settings are JavaScript objects, so both the loaded settings and the local
 * copy are maps from key names to dynamic values; a key missing from the
 * local map is `undefined`. An object-valued setting (the hub menu block) is
 * a reference, compared by identity as `!==` does.
 */
module SettingsModal {
  import opened Wrappers
  import Strings

  /** A JavaScript value held by a setting. */
  datatype Value = Num(n: int) | NaN | Str(s: string) | Bool(b: bool) | Ref(address: nat)

  type Settings = map<string, Value>

  /** `a !== b`: NaN differs from everything, itself included. */
  predicate StrictlyDiffers(a: Value, b: Value)
  {
    a != b || a.NaN?
  }

  /** The kind of form control an event comes from. */
  datatype Control = Checkbox | NumberInput | OtherInput

  datatype ChangeEvent = ChangeEvent(name: string, value: string, control: Control, checked: bool)

  /**
   * The value handleInputChange stores: the checked flag of a checkbox; for a
   * number input the parsed integer, else the raw text ("" stays ""); the
   * raw text of any other control.
   */
  function Processed(e: ChangeEvent): (v: Value)
    ensures e.control == Checkbox ==> v == Bool(e.checked)
    ensures e.control == NumberInput && Strings.ParseInt(e.value).Some? ==> v == Num(Strings.ParseInt(e.value).value)
    ensures e.control == NumberInput && Strings.ParseInt(e.value).None? ==> v == Str(e.value)
    ensures e.control == OtherInput ==> v == Str(e.value)
  {
    match e.control
    case Checkbox => Bool(e.checked)
    case NumberInput =>
      (match Strings.ParseInt(e.value)
       case Some(n) => Num(n)
       case None => if e.value == "" then Str("") else Str(e.value))
    case OtherInput => Str(e.value)
  }

  /** A number field holding the numeral of an integer stores that integer. */
  lemma NumberFieldReadsNumeral(name: string, n: int)
    ensures Processed(ChangeEvent(name, Strings.IntString(n), NumberInput, false)) == Num(n)
  {
    Strings.ParseIntRoundTrip(n, "");
    assert Strings.IntString(n) + "" == Strings.IntString(n);
  }

  /** A cleared number field stores the empty string, not a number. */
  lemma ClearedNumberFieldIsEmptyText(name: string)
    ensures Processed(ChangeEvent(name, "", NumberInput, false)) == Str("")
  {
    Strings.BlankIsNaN("");
  }

  function Clamp(lo: int, hi: int, n: int): (r: int)
    requires lo <= hi
    ensures lo <= r <= hi
    ensures lo <= n <= hi ==> r == n
    ensures n < lo ==> r == lo
    ensures n > hi ==> r == hi
  {
    if n < lo then lo else if n > hi then hi else n
  }

  /** The quality restored for blank or unreadable text: the loaded one, or 90 when there is none. */
  function FallbackQuality(settings: Settings): Value
  {
    if "jpegQuality" in settings then settings["jpegQuality"] else Num(90)
  }

  /**
   * The JPEG quality after its field loses focus: blank or unreadable text
   * falls back to the loaded quality; a number is clamped into 1..100.
   */
  function BlurredQuality(settings: Settings, text: string): (v: Value)
    ensures Strings.Trim(text) == [] || Strings.ParseInt(text).None? ==> v == FallbackQuality(settings)
    ensures Strings.Trim(text) != [] && Strings.ParseInt(text).Some? ==>
              v == Num(Clamp(1, 100, Strings.ParseInt(text).value)) && 1 <= v.n <= 100
  {
    var parsed := Strings.ParseInt(text);
    if Strings.Trim(text) == [] || parsed.None? then FallbackQuality(settings)
    else Num(Clamp(1, 100, parsed.value))
  }

  /** Every numeral, of any size, leaves the field with a quality in 1..100. */
  lemma TypedQualityInRange(settings: Settings, n: int)
    ensures var v := BlurredQuality(settings, Strings.IntString(n));
      v.Num? && 1 <= v.n <= 100 && (n < 1 ==> v.n == 1) && (n > 100 ==> v.n == 100)
  {
    var text := Strings.IntString(n);
    assert Strings.ParseInt(text) == Some(n) by {
      Strings.ParseIntRoundTrip(n, "");
      assert text + "" == text;
    }
    assert Strings.Trim(text) != [] by {
      assert !Strings.IsSpace(text[0]);
    }
    assert BlurredQuality(settings, text) == Num(Clamp(1, 100, n));
  }

  /**
   * The value compared on Save: the JPEG quality goes through `Number(...)`
   * (a missing value becomes NaN); every other key is read as it is.
   */
  function SavedValue(local: Settings, key: string): (r: Option<Value>)
    ensures key != "jpegQuality" ==> (r.Some? <==> key in local) && (r.Some? ==> r.value == local[key])
    ensures key == "jpegQuality" ==> r.Some?
  {
    if key == "jpegQuality" then Some(ToNumber(if key in local then Some(local[key]) else None))
    else if key in local then Some(local[key])
    else None
  }

  /**
   * `Number(v)` on the values a setting can hold: blank text is 0, an
   * optionally signed digit run is its value, `true` and `false` are 1 and 0;
   * `undefined`, objects and any other text are NaN.
   */
  function ToNumber(v: Option<Value>): (r: Value)
    ensures r.Num? || r.NaN?
    ensures v.Some? && v.value.Num? ==> r == v.value
  {
    match v
    case None => NaN
    case Some(Num(n)) => Num(n)
    case Some(NaN) => NaN
    case Some(Bool(b)) => Num(if b then 1 else 0)
    case Some(Ref(_)) => NaN
    case Some(Str(s)) =>
      var t := Strings.Trim(s);
      if t == [] then Num(0)
      else if IsIntegerText(t) then
        match Strings.ParseInt(t)
        case Some(n) => Num(n)
        case None => NaN
      else NaN
  }

  /** An optional sign followed by at least one digit and nothing else. */
  predicate IsIntegerText(t: string)
  {
    var u := Strings.Unsigned(t);
    u != [] && Strings.AllDigits(u)
  }

  /**
   * The changes Save collects: each loaded key whose local value is defined
   * and differs (`!==`) from the loaded one, with the local value.
   */
  function Changes(settings: Settings, local: Settings): (changes: Settings)
    ensures changes.Keys <= settings.Keys
    ensures forall k :: k in changes <==>
      k in settings && SavedValue(local, k).Some? && StrictlyDiffers(SavedValue(local, k).value, settings[k])
    ensures forall k :: k in changes ==> changes[k] == SavedValue(local, k).value
  {
    map k | k in settings && SavedValue(local, k).Some? && StrictlyDiffers(SavedValue(local, k).value, settings[k])
      :: SavedValue(local, k).value
  }

  /**
   * Opening the dialog copies the settings; saving without an edit collects
   * nothing, so the save callback is not called, provided the loaded
   * settings hold no NaN and a numeric quality.
   */
  lemma UneditedSavesNothing(settings: Settings)
    requires forall k :: k in settings ==> !settings[k].NaN?
    requires "jpegQuality" in settings ==> settings["jpegQuality"].Num?
    ensures Changes(settings, settings) == map[]
  {
    forall k | k in settings
      ensures !StrictlyDiffers(SavedValue(settings, k).value, settings[k])
    {
    }
  }

  /** Editing one key and saving reports that key, and only it, when the new value differs. */
  lemma OneEditOneChange(settings: Settings, key: string, v: Value)
    requires key != "jpegQuality" && key in settings
    requires forall k :: k in settings ==> !settings[k].NaN?
    requires "jpegQuality" in settings ==> settings["jpegQuality"].Num?
    ensures Changes(settings, settings[key := v]) == if v == settings[key] then map[] else map[key := v]
  {
    var local := settings[key := v];
    var c := Changes(settings, local);
    forall k | k in settings && k != key
      ensures !StrictlyDiffers(SavedValue(local, k).value, settings[k])
    {
    }
    if v == settings[key] {
      assert c.Keys == {};
    } else {
      assert c.Keys == {key};
    }
  }

  /** Whether Save calls the save callback, and with what. */
  datatype SaveOutcome = SaveChanges(changes: Settings) | CloseOnly

  /**
   * The dialog's local copy of the settings. The loaded settings belong to
   * the caller and are passed to each handler that reads them.
   */
  class Dialog {
    var local: Settings

    /** Opening the dialog with loaded settings copies them. */
    constructor (settings: Settings)
      ensures local == settings
    {
      local := settings;
    }

    /** handleInputChange: only the named key changes, to the processed value. */
    method InputChange(e: ChangeEvent)
      modifies this
      ensures local == old(local)[e.name := Processed(e)]
    {
      local := local[e.name := Processed(e)];
    }

    /** handleJpegQualityBlur: only the quality field reacts, with the clamped or fallback value. */
    method JpegQualityBlur(settings: Settings, name: string, text: string)
      modifies this
      ensures name == "jpegQuality" ==> local == old(local)["jpegQuality" := BlurredQuality(settings, text)]
      ensures name != "jpegQuality" ==> local == old(local)
    {
      if name == "jpegQuality" {
        local := local["jpegQuality" := BlurredQuality(settings, text)];
      }
    }

    /**
     * handleSaveClick: walks the loaded keys collecting the changed ones,
     * then saves them if there are any and otherwise only closes.
     */
    method SaveClick(settings: Settings) returns (outcome: SaveOutcome)
      ensures Changes(settings, local) != map[] ==> outcome == SaveChanges(Changes(settings, local))
      ensures Changes(settings, local) == map[] ==> outcome == CloseOnly
    {
      var changes: Settings := map[];
      var remaining := settings.Keys;
      while remaining != {}
        invariant remaining <= settings.Keys
        invariant forall k :: k in changes <==>
          k in settings && k !in remaining
          && SavedValue(local, k).Some? && StrictlyDiffers(SavedValue(local, k).value, settings[k])
        invariant forall k :: k in changes ==> changes[k] == SavedValue(local, k).value
        decreases remaining
      {
        var key :| key in remaining;
        var localValue := SavedValue(local, key);
        if localValue.Some? && StrictlyDiffers(localValue.value, settings[key]) {
          changes := changes[key := localValue.value];
        }
        remaining := remaining - {key};
      }
      assert changes == Changes(settings, local);
      if |changes| > 0 {
        outcome := SaveChanges(changes);
      } else {
        outcome := CloseOnly;
      }
    }
  }
}
