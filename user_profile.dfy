/**
 * The profile page: the signed-in user's record, an edit mode for six of
 * its fields, and the "My Events" tab.
 */
module Profile {
  import opened Wrappers
  import opened Seqs
  import opened Types
  import MockData

  /** The fields the edit form has inputs for. */
  datatype ProfileField = NameField | EmailField | PhoneField | CityField | DateOfBirthField | BioField

  /** `handleInputChange`: `{ ...prev, [field]: value }` for one of the editable fields. */
  function WithField(u: User, field: ProfileField, value: string): (r: User)
    ensures field == NameField ==> r == u.(name := value)
    ensures field == EmailField ==> r == u.(email := value)
    ensures field == PhoneField ==> r == u.(phone := value)
    ensures field == CityField ==> r == u.(city := value)
    ensures field == DateOfBirthField ==> r == u.(dateOfBirth := Some(value))
    ensures field == BioField ==> r == u.(bio := Some(value))
  {
    match field
    case NameField => u.(name := value)
    case EmailField => u.(email := value)
    case PhoneField => u.(phone := value)
    case CityField => u.(city := value)
    case DateOfBirthField => u.(dateOfBirth := Some(value))
    case BioField => u.(bio := Some(value))
  }

  /** A typed value in one input of the edit form. */
  datatype Edit = Edit(field: ProfileField, value: string)

  function ApplyEdits(u: User, edits: seq<Edit>): User
    decreases |edits|
  {
    if edits == [] then u else ApplyEdits(WithField(u, edits[0].field, edits[0].value), edits[1..])
  }

  /** No sequence of edits changes the id, the role, the join date or the preferences. */
  lemma {:induction false} EditsKeepIdentity(u: User, edits: seq<Edit>)
    ensures ApplyEdits(u, edits).id == u.id && ApplyEdits(u, edits).role == u.role
    ensures ApplyEdits(u, edits).joinedDate == u.joinedDate && ApplyEdits(u, edits).preferences == u.preferences
    decreases |edits|
  {
    if edits != [] {
      var v := WithField(u, edits[0].field, edits[0].value);
      assert v.id == u.id && v.role == u.role && v.joinedDate == u.joinedDate && v.preferences == u.preferences;
      EditsKeepIdentity(v, edits[1..]);
    }
  }

  function OrganizedBy(userId: string): Event -> bool {
    (e: Event) => e.organizer.id == userId
  }

  /** The "My Events" tab: the events whose organizer has the profile's id. */
  function MyEvents(events: seq<Event>, u: User): seq<Event> {
    Filter(events, OrganizedBy(u.id))
  }

  lemma MyEventsRule(events: seq<Event>, u: User, e: Event)
    ensures IsSubsequence(MyEvents(events, u), events)
    ensures e in MyEvents(events, u) <==> e in events && e.organizer.id == u.id
  {
    FilterIsSubsequence(events, OrganizedBy(u.id));
    FilterMembership(events, OrganizedBy(u.id), e);
  }

  /** Since edits never touch the id, the "My Events" tab is the same before and after editing. */
  lemma MyEventsStableUnderEdits(events: seq<Event>, u: User, edits: seq<Edit>)
    ensures MyEvents(events, ApplyEdits(u, edits)) == MyEvents(events, u)
  {
    EditsKeepIdentity(u, edits);
  }

  /** All three fixture events are organized by the fixture user. */
  lemma MyEventsFixture()
    ensures MyEvents(MockData.MockEvents, MockData.MockUser) == MockData.MockEvents
  {
    FilterKeepsAll(MockData.MockEvents, OrganizedBy(MockData.MockUser.id));
  }

  datatype Tab = ProfileTab | EventsTab | BookingsTab | FavoritesTab

  /** The page state. */
  class ProfileView {
    var isEditing: bool
    var activeTab: Tab
    var profileData: User

    constructor ()
      ensures !isEditing && activeTab == ProfileTab && profileData == MockData.MockUser
    {
      isEditing := false;
      activeTab := ProfileTab;
      profileData := MockData.MockUser;
    }

    /** "Edit Profile", shown while not editing. */
    method StartEditing()
      requires !isEditing
      modifies this
      ensures isEditing && profileData == old(profileData) && activeTab == old(activeTab)
    {
      isEditing := true;
    }

    /** An input of the edit form, shown only while editing: one field changes. */
    method HandleInputChange(field: ProfileField, value: string)
      requires isEditing
      modifies this
      ensures profileData == WithField(old(profileData), field, value)
      ensures isEditing && activeTab == old(activeTab)
    {
      profileData := WithField(profileData, field, value);
    }

    /** `handleSave`: leaves edit mode, keeping the edits. */
    method Save()
      requires isEditing
      modifies this
      ensures !isEditing && profileData == old(profileData) && activeTab == old(activeTab)
    {
      isEditing := false;
    }

    /** "Cancel": leaves edit mode too, and does not restore the values edited so far. */
    method Cancel()
      requires isEditing
      modifies this
      ensures !isEditing && profileData == old(profileData) && activeTab == old(activeTab)
    {
      isEditing := false;
    }

    method SelectTab(tab: Tab)
      modifies this
      ensures activeTab == tab && isEditing == old(isEditing) && profileData == old(profileData)
    {
      activeTab := tab;
    }
  }
}
