/** The saved-places settings screen: the add/edit dialog's fields, how
    opening the dialog fills them, and the validation and record built by
    `handleSave`. `parseFloat` is a parameter of type `ParseFloat`, whose
    `None` stands for `NaN`; `Number.prototype.toString` is a parameter too. */
module LocationSettings {
  import opened Wrappers
  import opened Types
  import Js

  const NameMessage: string := "위치 이름을 입력해주세요"
  const CoordinateMessage: string := "유효한 좌표를 입력해주세요"
  const RangeMessage: string := "좌표 범위가 올바르지 않습니다 (위도: -90~90, 경도: -180~180)"
  const DefaultIcon: string := "📍"
  const DefaultRadius: real := 100.0

  /** `parseFloat`: the number read from a string, or `None` for `NaN`. */
  type ParseFloat = string -> Option<real>

  /** A saved location without its id and creation time, as passed to the
      add and update callbacks. */
  datatype LocationData = LocationData(
    name: string,
    icon: string,
    latitude: real,
    longitude: real,
    radius: real,
    address: Option<string>)

  /** What `handleSave` does: rejects with a message, or calls exactly one of
      the two callbacks. */
  datatype SaveOutcome =
    | Rejected(message: string)
    | Updated(id: string, data: LocationData)
    | Added(data: LocationData)

  /** The dialog's fields. */
  datatype Form = Form(
    editing: Option<SavedLocation>,
    name: string,
    icon: string,
    latitude: string,
    longitude: string,
    radius: real,
    address: string)

  /** `handleOpenDialog(location?)`: an existing place pre-fills every field
      (its coordinates as text), a new one starts blank with the pin icon and
      a 100 m radius. */
  function Opened(location: Option<SavedLocation>, show: real -> string): (f: Form)
    ensures f.editing == location
    ensures location.None? ==> f == Form(None, "", "📍", "", "", 100.0, "")
    ensures location.Some? ==>
      var l := location.value;
      f.name == l.name && f.icon == l.icon && f.latitude == show(l.latitude) &&
      f.longitude == show(l.longitude) && f.radius == l.radius &&
      f.address == (if l.address.Some? then l.address.value else "")
  {
    if location.Some? then
      var l := location.value;
      Form(location, l.name, l.icon, show(l.latitude), show(l.longitude), l.radius,
           if TruthyText(l.address) then l.address.value else "")
    else Form(None, "", DefaultIcon, "", "", DefaultRadius, "")
  }

  predicate InRange(latitude: real, longitude: real) {
    -90.0 <= latitude <= 90.0 && -180.0 <= longitude <= 180.0
  }

  /** `address.trim() || undefined`. */
  function TrimmedAddress(address: string): Option<string> {
    var t := Js.Trim(address);
    if t == "" then None else Some(t)
  }

  /** `handleSave`: a blank name, then an unreadable coordinate, then an
      out-of-range coordinate are rejected, in that order; otherwise the
      trimmed record goes to the update callback when a place is being
      edited and to the add callback when not. */
  function Decide(form: Form, parse: ParseFloat): SaveOutcome {
    if Js.Trim(form.name) == "" then Rejected(NameMessage)
    else
      var lat, lon := parse(form.latitude), parse(form.longitude);
      if lat.None? || lon.None? then Rejected(CoordinateMessage)
      else if lat.value < -90.0 || lat.value > 90.0 || lon.value < -180.0 || lon.value > 180.0 then
        Rejected(RangeMessage)
      else
        var data := LocationData(Js.Trim(form.name), form.icon, lat.value, lon.value, form.radius,
                                 TrimmedAddress(form.address));
        if form.editing.Some? then Updated(form.editing.value.id, data) else Added(data)
  }

  /** The checks run in order and only the first failure is reported. */
  lemma RejectionsInOrder(form: Form, parse: ParseFloat)
    ensures Js.AllWhitespace(form.name) ==> Decide(form, parse) == Rejected(NameMessage)
    ensures !Js.AllWhitespace(form.name) && (parse(form.latitude).None? || parse(form.longitude).None?) ==>
      Decide(form, parse) == Rejected(CoordinateMessage)
    ensures (!Js.AllWhitespace(form.name) && parse(form.latitude).Some? && parse(form.longitude).Some? &&
             !InRange(parse(form.latitude).value, parse(form.longitude).value)) ==>
      Decide(form, parse) == Rejected(RangeMessage)
  {
    Js.TrimBlankIff(form.name);
  }

  /** A save goes through exactly when the name is not blank and both
      coordinates read as numbers inside the inclusive ranges. */
  lemma AcceptedExactly(form: Form, parse: ParseFloat)
    ensures !Decide(form, parse).Rejected? <==>
      !Js.AllWhitespace(form.name) && parse(form.latitude).Some? && parse(form.longitude).Some? &&
      InRange(parse(form.latitude).value, parse(form.longitude).value)
  {
    Js.TrimBlankIff(form.name);
  }

  /** The saved record: the name trimmed (and so neither blank nor padded),
      the coordinates as read, icon and radius as in the form, and the
      address trimmed with a blank one left undefined. */
  lemma SavedRecord(form: Form, parse: ParseFloat)
    requires !Decide(form, parse).Rejected?
    ensures var d := Decide(form, parse).data;
      d.name == Js.Trim(form.name) && d.name != "" &&
      !Js.IsWhitespace(d.name[0]) && !Js.IsWhitespace(d.name[|d.name| - 1]) &&
      Some(d.latitude) == parse(form.latitude) && Some(d.longitude) == parse(form.longitude) &&
      InRange(d.latitude, d.longitude) &&
      d.icon == form.icon && d.radius == form.radius &&
      (d.address.None? <==> Js.AllWhitespace(form.address)) &&
      (d.address.Some? ==> d.address.value == Js.Trim(form.address) && d.address.value != "")
  {
    Js.TrimBlankIff(form.address);
  }

  /** Exactly one callback: the update, with the edited place's id, when a
      place is being edited; the add otherwise. */
  lemma OneCallback(form: Form, parse: ParseFloat)
    requires !Decide(form, parse).Rejected?
    ensures Decide(form, parse).Updated? <==> form.editing.Some?
    ensures Decide(form, parse).Updated? ==> Decide(form, parse).id == form.editing.value.id
  {
  }

  /** A freshly opened "add" dialog cannot be saved as it is: its name is
      empty. */
  lemma BlankDialogRejected(show: real -> string, parse: ParseFloat)
    ensures Decide(Opened(None, show), parse) == Rejected(NameMessage)
  {
  }

  /** Opening a well-formed place and saving without edits updates it with
      its own values, given that reading back a printed coordinate gives the
      coordinate. */
  lemma ReopenAndSave(l: SavedLocation, show: real -> string, parse: ParseFloat)
    requires l.name != "" && !Js.IsWhitespace(l.name[0]) && !Js.IsWhitespace(l.name[|l.name| - 1])
    requires InRange(l.latitude, l.longitude)
    requires parse(show(l.latitude)) == Some(l.latitude) && parse(show(l.longitude)) == Some(l.longitude)
    requires l.address.None? ||
      (l.address.value != "" && !Js.IsWhitespace(l.address.value[0]) &&
       !Js.IsWhitespace(l.address.value[|l.address.value| - 1]))
    ensures Decide(Opened(Some(l), show), parse) ==
      Updated(l.id, LocationData(l.name, l.icon, l.latitude, l.longitude, l.radius, l.address))
  {
    Js.TrimTrimmed(l.name);
    if l.address.Some? {
      Js.TrimTrimmed(l.address.value);
    } else {
      assert Js.Trim("") == "";
    }
  }

  // ---------------------------------------------------------------------------
  // The dialog

  class LocationDialog {
    var dialogOpen: bool
    var editing: Option<SavedLocation>
    var name: string
    var icon: string
    var latitude: string
    var longitude: string
    var radius: real
    var address: string

    function State(): Form
      reads this
    {
      Form(editing, name, icon, latitude, longitude, radius, address)
    }

    constructor ()
      ensures State() == Opened(None, _ => "") && !dialogOpen
    {
      dialogOpen := false;
      editing := None;
      name, icon := "", DefaultIcon;
      latitude, longitude := "", "";
      radius := DefaultRadius;
      address := "";
    }

    /** `handleOpenDialog`: fills the fields one by one, then opens. */
    method OpenDialog(location: Option<SavedLocation>, show: real -> string)
      modifies this
      ensures State() == Opened(location, show) && dialogOpen
    {
      if location.Some? {
        var l := location.value;
        editing := location;
        name := l.name;
        icon := l.icon;
        latitude := show(l.latitude);
        longitude := show(l.longitude);
        radius := l.radius;
        address := if TruthyText(l.address) then l.address.value else "";
      } else {
        editing := None;
        name := "";
        icon := DefaultIcon;
        latitude := "";
        longitude := "";
        radius := DefaultRadius;
        address := "";
      }
      dialogOpen := true;
    }

    /** `handleSave`: returns what was passed to the callbacks (or the error
      shown); the dialog closes only when a callback ran. */
    method Save(parse: ParseFloat) returns (outcome: SaveOutcome)
      modifies this
      ensures outcome == Decide(old(State()), parse)
      ensures State() == old(State())
      ensures dialogOpen == (if outcome.Rejected? then old(dialogOpen) else false)
    {
      outcome := Decide(State(), parse);
      if !outcome.Rejected? {
        dialogOpen := false;
      }
    }
  }
}
