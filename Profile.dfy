/**
 * The profile page: the form state loaded from the stored user, the change handler that
 * understands dotted "address.<field>" names, the upload check of a new picture, and
 * saving and cancelling an edit.  JSON records are modelled as maps from keys to values;
 * a value is a string or an object of strings.
 */
module Profile {
  import opened Wrappers
  import opened Strings

  datatype Value = Text(text: string) | Obj(fields: map<string, string>)

  type Record = map<string, Value>

  const DefaultImage: string := "https://github.com/shadcn.png"
  const MaxImageBytes := 5 * 1024 * 1024

  const TextFields: seq<string> := ["firstName", "lastName", "username", "email", "phone", "dateOfBirth", "gender", "bio"]
  const FormKeys: set<string> := {"firstName", "lastName", "username", "email", "phone", "dateOfBirth", "gender", "bio", "address"}

  const EmptyAddress: Value := Obj(map["street" := "", "city" := "", "state" := "", "zipCode" := "", "country" := ""])

  function Get(r: Record, k: string): Option<Value> {
    if k in r then Some(r[k]) else None
  }

  /** JavaScript truthiness of a field: present, and not the empty string (objects are always truthy). */
  predicate Truthy(v: Option<Value>) {
    v.Some? && (v.value.Obj? || v.value.text != "")
  }

  /** `user.<k> || ""`. */
  function TextOr(u: Record, k: string): (v: Value)
    ensures Truthy(Get(u, k)) ==> v == u[k]
    ensures !Truthy(Get(u, k)) ==> v == Text("")
  {
    if Truthy(Get(u, k)) then u[k] else Text("")
  }

  /** `user.address || {street: "", …}`. */
  function AddressOr(u: Record): (v: Value)
    ensures Truthy(Get(u, "address")) ==> v == u["address"]
    ensures !Truthy(Get(u, "address")) ==> v == EmptyAddress
  {
    if Truthy(Get(u, "address")) then u["address"] else EmptyAddress
  }

  /**
   * The form built from a stored user, at load and on cancel: each text field or "", and the
   * address or an empty address.
   */
  function Normalize(u: Record): (f: Record)
    ensures f.Keys == FormKeys
    ensures forall k :: k in f && k != "address" ==> f[k] == TextOr(u, k)
    ensures f["address"] == AddressOr(u)
  {
    map k | k in FormKeys :: if k == "address" then AddressOr(u) else TextOr(u, k)
  }

  /** The picture the page shows for a stored user: theirs, or the default. */
  function ImageOf(u: Record): (img: string)
    ensures "profileImage" in u && u["profileImage"].Text? && u["profileImage"].text != "" ==> img == u["profileImage"].text
    ensures img != ""
    ensures !("profileImage" in u && u["profileImage"].Text? && u["profileImage"].text != "") ==> img == DefaultImage
  {
    if "profileImage" in u && u["profileImage"].Text? && u["profileImage"].text != "" then u["profileImage"].text
    else DefaultImage
  }

  /** `key` never gives two indices the same name. */
  ghost predicate Injective(key: nat -> string) {
    forall i: nat, j: nat :: i != j ==> key(i) != key(j)
  }

  /** `m` holds exactly one entry per character of `s`, named by `key` applied to its index. */
  ghost predicate IsEntries(s: string, key: nat -> string, m: map<string, string>) {
    && |m| == |s|
    && (forall i: nat :: i < |s| ==> key(i) in m && m[key(i)] == [s[i]])
    && (forall k :: k in m ==> exists i: nat :: i < |s| && k == key(i))
  }

  function Entries(s: string, key: nat -> string): (m: map<string, string>)
    requires Injective(key)
    ensures IsEntries(s, key, m)
  {
    if s == [] then map[]
    else
      var prev := Entries(s[..|s| - 1], key);
      EntriesStep(s, key, prev);
      prev[key(|s| - 1) := [s[|s| - 1]]]
  }

  lemma EntriesStep(s: string, key: nat -> string, prev: map<string, string>)
    requires Injective(key) && |s| > 0 && IsEntries(s[..|s| - 1], key, prev)
    ensures IsEntries(s, key, prev[key(|s| - 1) := [s[|s| - 1]]])
  {
    var n := |s| - 1;
    var m := prev[key(n) := [s[n]]];
    assert key(n) !in prev;
    assert |m| == |s|;
    forall k | k in m ensures exists i: nat :: i < |s| && k == key(i) {
      if k != key(n) {
        var i: nat :| i < n && k == key(i);
      }
    }
    forall i: nat | i < |s| ensures key(i) in m && m[key(i)] == [s[i]] {
      if i < n {
        assert s[..n][i] == s[i];
      }
    }
  }

  lemma IndexNamesInjective()
    ensures Injective(NatToString)
  {
    forall i: nat, j: nat | i != j ensures NatToString(i) != NatToString(j) {
      NatToStringInjective(i, j);
    }
  }

  /** `{...s}` for a string `s`: one entry per character, keyed by its index written in decimal. */
  function CharEntries(s: string): (m: map<string, string>)
    ensures IsEntries(s, NatToString, m)
  {
    IndexNamesInjective();
    Entries(s, NatToString)
  }

  /**
   * `{...v}` for the current address: an object's own fields, a string's characters by
   * index, nothing for a missing value.
   */
  function Spread(v: Option<Value>): (m: map<string, string>)
    ensures v.Some? && v.value.Obj? ==> m == v.value.fields
    ensures v.None? ==> m == map[]
    ensures v.Some? && v.value.Text? ==> m == CharEntries(v.value.text)
  {
    match v
    case None => map[]
    case Some(Obj(fields)) => fields
    case Some(Text(s)) => CharEntries(s)
  }

  /** `name.split(".")[1]` for a name that starts with "address.": the text up to the next dot. */
  function AddressField(name: string): (field: string)
    requires StartsWith(name, "address.")
    ensures forall k :: 0 <= k < |field| ==> field[k] != '.'
    ensures StartsWith(name[8..], field)
    ensures |field| == |name| - 8 || name[8 + |field|] == '.'
  {
    var rest := name[8..];
    match FirstIndexOf(rest, '.')
    case None => rest
    case Some(k) => rest[..k]
  }

  /** `handleInputChange`: a dotted address name updates that address field; any other name sets a top-level field. */
  function InputChange(form: Record, name: string, value: string): (r: Record)
    ensures StartsWith(name, "address.") ==>
      && r.Keys == form.Keys + {"address"}
      && (forall k :: k in form && k != "address" ==> r[k] == form[k])
      && r["address"] == Obj(Spread(Get(form, "address"))[AddressField(name) := value])
    ensures !StartsWith(name, "address.") ==>
      && r.Keys == form.Keys + {name}
      && (forall k :: k in form && k != name ==> r[k] == form[k])
      && r[name] == Text(value)
  {
    if StartsWith(name, "address.") then
      form["address" := Obj(Spread(Get(form, "address"))[AddressField(name) := value])]
    else
      form[name := Text(value)]
  }

  /** Editing an object address changes only the named field of it. */
  lemma AddressEditIsLocal(form: Record, name: string, value: string)
    requires StartsWith(name, "address.") && "address" in form && form["address"].Obj?
    ensures var a := InputChange(form, name, value)["address"].fields;
      && a.Keys == form["address"].fields.Keys + {AddressField(name)}
      && a[AddressField(name)] == value
      && forall k :: k in form["address"].fields && k != AddressField(name) ==> a[k] == form["address"].fields[k]
  {
  }

  /** The form as the page builds it: the nine keys, text fields holding strings, the address an object. */
  predicate WellFormed(form: Record) {
    && form.Keys == FormKeys
    && (forall k :: k in form && k != "address" ==> form[k].Text?)
    && form["address"].Obj?
  }

  lemma NormalizedFromObjectAddress(u: Record)
    requires (forall k :: k in u && k in FormKeys && k != "address" ==> u[k].Text?)
    requires "address" !in u || u["address"].Obj? || u["address"] == Text("")
    ensures WellFormed(Normalize(u))
  {
  }

  /** Typing into a text field or an address field keeps the form well formed. */
  lemma InputChangeKeepsWellFormed(form: Record, name: string, value: string)
    requires WellFormed(form)
    requires name in TextFields || StartsWith(name, "address.")
    ensures WellFormed(InputChange(form, name, value))
  {
    if !StartsWith(name, "address.") {
      assert name in FormKeys && name != "address";
    }
  }

  /** `{...user, ...formData, profileImage}`: later sources win. */
  function Saved(user: Option<Record>, form: Record, image: string): (u: Record)
    ensures u.Keys == (if user.Some? then user.value.Keys else {}) + form.Keys + {"profileImage"}
    ensures u["profileImage"] == Text(image)
    ensures forall k :: k in form && k != "profileImage" ==> u[k] == form[k]
    ensures forall k :: user.Some? && k in user.value && k !in form && k != "profileImage" ==> u[k] == user.value[k]
  {
    (if user.Some? then user.value else map[]) + form + map["profileImage" := Text(image)]
  }

  /** Saving and then cancelling gives back the form that was saved, and the saved picture unless it was empty. */
  lemma SaveThenCancel(user: Option<Record>, form: Record, image: string)
    requires WellFormed(form)
    ensures Normalize(Saved(user, form, image)) == form
    ensures ImageOf(Saved(user, form, image)) == if image != "" then image else DefaultImage
  {
    var u := Saved(user, form, image);
    var f := Normalize(u);
    assert "profileImage" !in FormKeys;
    forall k | k in FormKeys ensures f[k] == form[k] {
      if k != "address" {
        assert u[k] == form[k];
      }
    }
  }

  datatype ImageFile = ImageFile(mimeType: string, size: int)

  datatype UploadCheck = NoFile | NotAnImage | TooLarge | Accepted

  /** `handleImageUpload`'s checks, type first: an image type, at most 5 MiB. */
  function CheckUpload(file: Option<ImageFile>): (r: UploadCheck)
    ensures r == Accepted <==> file.Some? && StartsWith(file.value.mimeType, "image/") && file.value.size <= 5242880
    ensures r == NotAnImage <==> file.Some? && !StartsWith(file.value.mimeType, "image/")
    ensures r == TooLarge <==> file.Some? && StartsWith(file.value.mimeType, "image/") && file.value.size > 5242880
  {
    if file.None? then NoFile
    else if !StartsWith(file.value.mimeType, "image/") then NotAnImage
    else if file.value.size > MaxImageBytes then TooLarge
    else Accepted
  }

  function UploadAlert(r: UploadCheck): Option<string> {
    match r
    case NotAnImage => Some("Please select a valid image file.")
    case TooLarge => Some("Please select an image smaller than 5MB.")
    case _ => None
  }

  /** The page's state; `storage` is the browser storage the user record is saved to. */
  class ProfilePage {
    var user: Option<Record>
    var formData: Record
    var profileImage: string
    var isEditing: bool
    var storage: map<string, string>

    /** The initial load: with a stored user, the form and picture come from it. */
    constructor (stored: Option<Record>, browserStorage: map<string, string>)
      ensures user == stored && !isEditing && storage == browserStorage
      ensures stored.Some? ==> formData == Normalize(stored.value) && profileImage == ImageOf(stored.value)
      ensures stored.None? ==> formData == Normalize(map[]) && profileImage == DefaultImage
    {
      user := stored;
      isEditing := false;
      storage := browserStorage;
      if stored.Some? {
        formData := Normalize(stored.value);
        profileImage := ImageOf(stored.value);
      } else {
        formData := Normalize(map[]);
        profileImage := DefaultImage;
      }
    }

    /** The Edit button. */
    method StartEditing()
      modifies this`isEditing
      ensures isEditing
    {
      isEditing := true;
    }

    method HandleInputChange(name: string, value: string)
      modifies this`formData
      ensures formData == InputChange(old(formData), name, value)
    {
      formData := InputChange(formData, name, value);
    }

    /** An accepted file replaces the picture with its data URL, which the file reader supplies. */
    method HandleImageUpload(file: Option<ImageFile>, dataUrl: string) returns (alert: Option<string>)
      modifies this`profileImage
      ensures alert == UploadAlert(CheckUpload(file))
      ensures profileImage == if CheckUpload(file) == Accepted then dataUrl else old(profileImage)
    {
      var check := CheckUpload(file);
      if check == Accepted {
        profileImage := dataUrl;
      }
      alert := UploadAlert(check);
    }

    /** `handleSave`: the merged record is stored under "user" and becomes the user. */
    method HandleSave(stringify: Record -> string)
      modifies this`user, this`storage, this`isEditing
      ensures user == Some(Saved(old(user), formData, profileImage))
      ensures storage == old(storage)["user" := stringify(Saved(old(user), formData, profileImage))]
      ensures !isEditing
    {
      var updated := Saved(user, formData, profileImage);
      storage := storage["user" := stringify(updated)];
      user := Some(updated);
      isEditing := false;
    }

    /** `handleCancel`: with a user, the form and picture are rebuilt from it; editing ends either way. */
    method HandleCancel()
      modifies this`formData, this`profileImage, this`isEditing
      ensures user.Some? ==> formData == Normalize(user.value) && profileImage == ImageOf(user.value)
      ensures user.None? ==> formData == old(formData) && profileImage == old(profileImage)
      ensures !isEditing
    {
      if user.Some? {
        formData := Normalize(user.value);
        profileImage := ImageOf(user.value);
      }
      isEditing := false;
    }
  }
}
