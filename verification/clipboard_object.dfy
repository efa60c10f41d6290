/**
 The clipboard object and its formats, as the clipboard service stores them.

 A clipboard object has a name fixed at creation, a progress percent, three
 display fields (icon, preview, activity) and a table of formats keyed by
 format type. How the display fields are derived from the formats is a policy
 outside the service; the model takes it as a function parameter.
 */
module ClipboardObject {

  /** A D-Bus byte array (`ay`); for an on-disk format it holds the file path. */
  type Bytes = seq<bv8>

  /** One encoding of an object's content: inline data, or a path when `onDisk`. */
  datatype Format = Format(formatType: string, data: Bytes, onDisk: bool)

  /** The display fields an object reports beside its name and percent. */
  datatype Display = Display(icon: string, preview: string, activity: string)

  /** The (unseen) rule that computes the display fields from an object's formats. */
  type DisplayPolicy = map<string, Format> -> Display

  datatype ClipObj = ClipObj(
    id: string,
    name: string,
    percent: int,
    icon: string,
    preview: string,
    activity: string,
    formats: map<string, Format>)

  /** Display fields the policy gives to a table of formats. */
  function DisplayOf(formats: map<string, Format>, policy: DisplayPolicy): Display
  {
    policy(formats)
  }

  /** A freshly created object: no formats, percent 0. */
  function NewObject(id: string, name: string, policy: DisplayPolicy): ClipObj
  {
    var d := DisplayOf(map[], policy);
    ClipObj(id, name, 0, d.icon, d.preview, d.activity, map[])
  }

  /** Stores `f` under its own format type, replacing any earlier format of that type. */
  function AddFormat(o: ClipObj, f: Format, policy: DisplayPolicy): ClipObj
  {
    var formats := o.formats[f.formatType := f];
    var d := DisplayOf(formats, policy);
    o.(formats := formats, icon := d.icon, preview := d.preview, activity := d.activity)
  }

  /** Stores `percent` as given; no range check. */
  function SetPercent(o: ClipObj, percent: int): ClipObj
  {
    o.(percent := percent)
  }
}
