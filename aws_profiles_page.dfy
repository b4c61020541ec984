/**
 * The AWS profiles page: the create and edit forms, the paste-credentials
 * boxes that fill them, the per-profile "show secret" switches and the
 * masked display of an access key. The page's own copy of the credential
 * parser is the same loop as the hook's and is modelled by
 * `CredentialParser.ParseCredentials`.
 */
module AwsProfilesPage {
  import opened Wrappers
  import opened Strings
  import opened CredentialParser
  import opened ProfileStore

  /** The create form (`CreateAWSProfileRequest` as the form holds it: every field a string). */
  datatype FormData = FormData(
    name: string,
    accessKeyId: string,
    secretAccessKey: string,
    region: string,
    sessionToken: string)

  /** The edit form: the same fields and the id of the profile being edited. */
  datatype EditForm = EditForm(id: string, fields: FormData)

  const InitialRegion := "us-east-1"
  const EmptyForm := FormData("", "", "", InitialRegion, "")
  const EmptyEditForm := EditForm("", EmptyForm)

  /** The keys of the "show parser" switches. */
  const CreateParser := "create"
  const EditParser := "edit"

  /**
   * `{...prev, ...parsed, region: parsed.region || prev.region}`: each field
   * the paste produced replaces the form's, the name is never touched, and
   * the region is replaced only by a non-empty one.
   */
  function MergeParsed(prev: FormData, parsed: Credentials): (r: FormData)
    ensures r.name == prev.name
    ensures parsed.accessKeyId.Some? ==> r.accessKeyId == parsed.accessKeyId.value
    ensures parsed.accessKeyId.None? ==> r.accessKeyId == prev.accessKeyId
    ensures parsed.secretAccessKey.Some? ==> r.secretAccessKey == parsed.secretAccessKey.value
    ensures parsed.secretAccessKey.None? ==> r.secretAccessKey == prev.secretAccessKey
    ensures parsed.sessionToken.Some? ==> r.sessionToken == parsed.sessionToken.value
    ensures parsed.sessionToken.None? ==> r.sessionToken == prev.sessionToken
    ensures Present(parsed.region) ==> r.region == parsed.region.value
    ensures !Present(parsed.region) ==> r.region == prev.region
    ensures prev.region != "" ==> r.region != ""
  {
    FormData(
      prev.name,
      parsed.accessKeyId.GetOr(prev.accessKeyId),
      parsed.secretAccessKey.GetOr(prev.secretAccessKey),
      if Present(parsed.region) then parsed.region.value else prev.region,
      parsed.sessionToken.GetOr(prev.sessionToken))
  }

  /** The create request the form submits. */
  function CreateRequest(f: FormData): NewProfileRequest {
    NewProfileRequest(f.name, f.accessKeyId, f.secretAccessKey, f.region, Some(f.sessionToken))
  }

  /** The update request the edit form submits: every field is supplied. */
  function UpdateRequest(e: EditForm): ProfileUpdate {
    ProfileUpdate(e.id, Some(e.fields.name), Some(e.fields.accessKeyId), Some(e.fields.secretAccessKey),
                  Some(e.fields.region), Some(e.fields.sessionToken))
  }

  /** `startEditingProfile`: the edit form filled from a profile; a missing session token shows as empty. */
  function EditFormOf(p: Profile): (e: EditForm)
    ensures e.id == p.id && e.fields.name == p.name && e.fields.region == p.region
    ensures e.fields.accessKeyId == p.accessKeyId && e.fields.secretAccessKey == p.secretAccessKey
    ensures e.fields.sessionToken == if Present(p.sessionToken) then p.sessionToken.value else ""
  {
    EditForm(p.id, FormData(p.name, p.accessKeyId, p.secretAccessKey, p.region,
                            if Present(p.sessionToken) then p.sessionToken.value else ""))
  }

  /** `!prev[id]` reads an absent switch as off. */
  predicate Flag(m: map<string, bool>, k: string) {
    k in m && m[k]
  }

  /** `toggleShowSecret`: the one switch flips and every other switch is kept as it was. */
  function Toggled(m: map<string, bool>, k: string): (r: map<string, bool>)
    ensures k in r && r[k] == !Flag(m, k)
    ensures forall j :: j != k ==> (j in r <==> j in m)
    ensures forall j :: j != k && j in m ==> r[j] == m[j]
  {
    m[k := !Flag(m, k)]
  }

  /** The access key as shown while hidden: four stars and at most the last four characters. */
  function MaskedAccessKey(key: string): (r: string)
    ensures StartsWith(r, "****")
    ensures |key| >= 4 ==> r == "****" + key[|key| - 4..]
    ensures |key| < 4 ==> r == "****" + key
  {
    "****" + SliceFromEnd(key, 4)
  }

  // -----------------------------------------------------------------------
  // Properties
  // -----------------------------------------------------------------------

  /** A paste that yields nothing leaves the form as it was. */
  lemma MergeNothingKeepsForm(prev: FormData)
    ensures MergeParsed(prev, NoCredentials) == prev
  {
  }

  /** Pasting the same credentials twice fills the form as pasting them once. */
  lemma MergeIdempotent(prev: FormData, parsed: Credentials)
    ensures MergeParsed(MergeParsed(prev, parsed), parsed) == MergeParsed(prev, parsed)
  {
  }

  /** A pasted `AWS_REGION` line sets the form's region whenever its value is not empty once cleaned. */
  lemma {:induction false} PastedRegionFillsForm(prev: FormData, v: string)
    requires IsLineValue(v) && CleanValue(v) != ""
    ensures MergeParsed(prev, Parsed(KeyName(Region) + "=" + v)).region == CleanValue(v)
  {
    var line := KeyName(Region) + "=" + v;
    KeyNameFacts(Region);
    assert '\n' !in line by {
      assert forall i :: 0 <= i < |line| ==> line[i] != '\n' by {
        forall i | 0 <= i < |line| ensures line[i] != '\n' {
          if i >= |KeyName(Region)| + 1 {
            assert line[i] == v[i - |KeyName(Region)| - 1];
          } else if i < |KeyName(Region)| {
            assert line[i] == KeyName(Region)[i];
          }
        }
      }
    }
    SplitNoSeparator(line, '\n');
    assert ApplyLines(NoCredentials, [line]) == ApplyLine(NoCredentials, line);
    ApplyDirectLine(NoCredentials, Region, v);
  }

  /** Toggling a switch twice restores every switch's reading. */
  lemma ToggleTwiceRestores(m: map<string, bool>, k: string, j: string)
    ensures Flag(Toggled(Toggled(m, k), k), j) == Flag(m, j)
  {
  }

  /**
   * Opening a profile for editing and saving it unchanged rewrites only the
   * change date, except that a missing session token is saved as empty.
   */
  lemma EditUnchangedKeepsProfile(p: Profile, now: int)
    ensures Updated(p, UpdateRequest(EditFormOf(p)), now)
         == p.(updatedAt := now, sessionToken := Some(if Present(p.sessionToken) then p.sessionToken.value else ""))
  {
  }

  // -----------------------------------------------------------------------
  // The page
  // -----------------------------------------------------------------------

  class ProfilesPage {
    var formData: FormData
    var editForm: EditForm
    var credentialText: string
    var editCredentialText: string
    var showParser: map<string, bool>
    var showSecrets: map<string, bool>
    var showCreateForm: bool
    var editingProfile: Option<string>

    /** Both forms empty with the default region, nothing shown or being edited. */
    predicate Initial()
      reads this
    {
      && formData == EmptyForm && editForm == EmptyEditForm
      && credentialText == "" && editCredentialText == ""
      && showParser == map[] && showSecrets == map[]
      && !showCreateForm && editingProfile.None?
    }

    constructor ()
      ensures Initial()
    {
      formData := EmptyForm;
      editForm := EmptyEditForm;
      credentialText := "";
      editCredentialText := "";
      showParser := map[];
      showSecrets := map[];
      showCreateForm := false;
      editingProfile := None;
    }

    /** `handleParseCredentials`: fill the create form from the paste, clear the box and hide its parser. */
    method ParseCreateCredentials()
      modifies this
      ensures formData == MergeParsed(old(formData), Parsed(old(credentialText)))
      ensures credentialText == "" && showParser == old(showParser)[CreateParser := false]
      ensures editForm == old(editForm) && editCredentialText == old(editCredentialText)
      ensures showSecrets == old(showSecrets) && showCreateForm == old(showCreateForm)
      ensures editingProfile == old(editingProfile)
    {
      var parsed := ParseCredentials(credentialText);
      formData := MergeParsed(formData, parsed);
      credentialText := "";
      showParser := showParser[CreateParser := false];
    }

    /** `handleParseEditCredentials`: the same for the edit form; its id is kept. */
    method ParseEditCredentials()
      modifies this
      ensures editForm == EditForm(old(editForm).id, MergeParsed(old(editForm).fields, Parsed(old(editCredentialText))))
      ensures editCredentialText == "" && showParser == old(showParser)[EditParser := false]
      ensures formData == old(formData) && credentialText == old(credentialText)
      ensures showSecrets == old(showSecrets) && showCreateForm == old(showCreateForm)
      ensures editingProfile == old(editingProfile)
    {
      var parsed := ParseCredentials(editCredentialText);
      editForm := EditForm(editForm.id, MergeParsed(editForm.fields, parsed));
      editCredentialText := "";
      showParser := showParser[EditParser := false];
    }

    /** `handleCreateProfile` after the store answered: a success resets and closes the form, a failure keeps it. */
    method CreateFinished(succeeded: bool)
      modifies this
      ensures succeeded ==> formData == EmptyForm && !showCreateForm
      ensures !succeeded ==> formData == old(formData) && showCreateForm == old(showCreateForm)
      ensures editForm == old(editForm) && credentialText == old(credentialText)
      ensures editCredentialText == old(editCredentialText) && showParser == old(showParser)
      ensures showSecrets == old(showSecrets) && editingProfile == old(editingProfile)
    {
      if succeeded {
        formData := EmptyForm;
        showCreateForm := false;
      }
    }

    /** `handleEditProfile` after the store answered: a success resets the edit form and ends editing. */
    method EditFinished(succeeded: bool)
      modifies this
      ensures succeeded ==> editForm == EmptyEditForm && editingProfile.None?
      ensures !succeeded ==> editForm == old(editForm) && editingProfile == old(editingProfile)
      ensures formData == old(formData) && credentialText == old(credentialText)
      ensures editCredentialText == old(editCredentialText) && showParser == old(showParser)
      ensures showSecrets == old(showSecrets) && showCreateForm == old(showCreateForm)
    {
      if succeeded {
        editingProfile := None;
        editForm := EmptyEditForm;
      }
    }

    /** `startEditingProfile` */
    method StartEditing(p: Profile)
      modifies this
      ensures editForm == EditFormOf(p) && editingProfile == Some(p.id)
      ensures formData == old(formData) && credentialText == old(credentialText)
      ensures editCredentialText == old(editCredentialText) && showParser == old(showParser)
      ensures showSecrets == old(showSecrets) && showCreateForm == old(showCreateForm)
    {
      editForm := EditFormOf(p);
      editingProfile := Some(p.id);
    }

    /** `cancelEditing` */
    method CancelEditing()
      modifies this
      ensures editForm == EmptyEditForm && editingProfile.None?
      ensures formData == old(formData) && credentialText == old(credentialText)
      ensures editCredentialText == old(editCredentialText) && showParser == old(showParser)
      ensures showSecrets == old(showSecrets) && showCreateForm == old(showCreateForm)
    {
      editingProfile := None;
      editForm := EmptyEditForm;
    }

    /** `toggleShowSecret` */
    method ToggleShowSecret(id: string)
      modifies this
      ensures showSecrets == Toggled(old(showSecrets), id)
      ensures formData == old(formData) && editForm == old(editForm)
      ensures credentialText == old(credentialText) && editCredentialText == old(editCredentialText)
      ensures showParser == old(showParser) && showCreateForm == old(showCreateForm)
      ensures editingProfile == old(editingProfile)
    {
      showSecrets := Toggled(showSecrets, id);
    }
  }
}
