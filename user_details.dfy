/**
 * The user's profile and the "has seen the welcome dialog" flag (`useUserDetails`): two raw
 * localStorage keys read once on mount and written by the two handlers.
 */
module UserDetailsHook {
  import opened Wrappers
  import opened Records

  const DetailsKey := "simpliquote_user_details"
  const HasSeenWelcomeKey := "simpliquote_has_seen_welcome"

  /**
   * A stored text, as `JSON.parse` sees it: a serialised profile, other JSON text (such as the
   * flag's "true", "null" or "[]"), or text that does not parse (the empty string among them).
   */
  datatype Item = DetailsJson(details: UserDetails) | OtherJson(json: string) | Unparsable(text: string)

  /** What `userDetails` holds: a profile, or the value `JSON.parse` gave for other JSON text. */
  datatype Details = Profile(profile: UserDetails) | NotAProfile(json: string)

  /** `localStorage.getItem(key)` is truthy: present and not the empty string. */
  predicate Present(local: map<string, Item>, key: string)
  {
    key in local && local[key] != Unparsable("") && local[key] != OtherJson("")
  }

  /** The welcome dialog has been dealt with in an earlier session. */
  predicate SeenWelcome(local: map<string, Item>)
  {
    Present(local, HasSeenWelcomeKey)
  }

  /** Stored profile text that `JSON.parse` rejects: the mount effect throws on it. */
  predicate DetailsUnreadable(local: map<string, Item>)
  {
    Present(local, DetailsKey) && local[DetailsKey].Unparsable?
  }

  /** The profile the mount effect finds, if any. */
  function StoredDetails(local: map<string, Item>): (r: Option<UserDetails>)
    ensures r.Some? <==> DetailsKey in local && local[DetailsKey].DetailsJson?
    ensures r.Some? ==> local[DetailsKey] == DetailsJson(r.value)
  {
    if DetailsKey in local && local[DetailsKey].DetailsJson? then Some(local[DetailsKey].details) else None
  }

  /** The value `JSON.parse` gives for stored JSON text that is not a profile: `null` is no value. */
  function OtherValue(json: string): (r: Option<Details>)
    ensures r.None? <==> json == "null"
    ensures r.Some? ==> r.value.NotAProfile? && r.value.json == json
  {
    if json == "null" then None else Some(NotAProfile(json))
  }

  /** The hook's state and the localStorage it reads and writes. */
  class UserDetailsState {
    var userDetails: Option<Details>
    var showWelcomeModal: bool
    var local: map<string, Item>

    /** The state before the mount effect: no profile, dialog hidden. */
    constructor(local: map<string, Item>)
      ensures this.local == local && userDetails.None? && !showWelcomeModal
    {
      this.local := local;
      userDetails := None;
      showWelcomeModal := false;
    }

    /**
     * The mount effect: adopts whatever the stored details text parses to and shows the welcome
     * dialog when the flag is absent. Text that does not parse makes the effect throw before
     * either update (`ok` false).
     */
    method Mount() returns (ok: bool)
      modifies this
      ensures local == old(local)
      ensures ok <==> !DetailsUnreadable(local)
      ensures StoredDetails(local).Some? ==> ok && userDetails == Some(Profile(StoredDetails(local).value))
      ensures Present(local, DetailsKey) && local[DetailsKey].OtherJson? ==>
                ok && userDetails == OtherValue(local[DetailsKey].json)
      ensures !Present(local, DetailsKey) ==> ok && userDetails == old(userDetails)
      ensures ok ==> showWelcomeModal == (!SeenWelcome(local) || old(showWelcomeModal))
      ensures !ok ==> userDetails == old(userDetails) && showWelcomeModal == old(showWelcomeModal)
    {
      var hasSeenWelcome := SeenWelcome(local);
      if Present(local, DetailsKey) {
        match local[DetailsKey] {
          case DetailsJson(d) => userDetails := Some(Profile(d));
          case OtherJson(json) => userDetails := OtherValue(json);
          case Unparsable(_) => return false;
        }
      }
      if !hasSeenWelcome {
        showWelcomeModal := true;
      }
      ok := true;
    }

    /** `saveUserDetails(details)`: keeps the profile in state and in storage, and sets the flag. */
    method SaveUserDetails(details: UserDetails)
      modifies this
      ensures userDetails == Some(Profile(details))
      ensures local == old(local)[DetailsKey := DetailsJson(details)][HasSeenWelcomeKey := OtherJson("true")]
      ensures showWelcomeModal == old(showWelcomeModal)
    {
      userDetails := Some(Profile(details));
      local := local[DetailsKey := DetailsJson(details)];
      local := local[HasSeenWelcomeKey := OtherJson("true")];
    }

    /** `skipWelcome()`: sets the flag and hides the dialog. */
    method SkipWelcome()
      modifies this
      ensures local == old(local)[HasSeenWelcomeKey := OtherJson("true")]
      ensures !showWelcomeModal && userDetails == old(userDetails)
    {
      local := local[HasSeenWelcomeKey := OtherJson("true")];
      showWelcomeModal := false;
    }
  }

  // ---- Properties -------------------------------------------------------------------------

  /** A first visit (nothing stored) shows the welcome dialog and no profile. */
  method FirstVisit() returns (h: UserDetailsState)
    ensures h.showWelcomeModal && h.userDetails.None?
  {
    h := new UserDetailsState(map[]);
    var ok := h.Mount();
  }

  /** Stored details that parse to something other than a profile are adopted as they are, and the dialog still shows. */
  method NonProfileDetailsStillWelcome(json: string) returns (h: UserDetailsState)
    requires json != ""
    ensures h.showWelcomeModal && h.userDetails == OtherValue(json)
  {
    h := new UserDetailsState(map[DetailsKey := OtherJson(json)]);
    var ok := h.Mount();
  }

  /** After the profile is saved, the next session finds it and does not show the dialog. */
  method NextSessionAfterSave(h: UserDetailsState, details: UserDetails) returns (next: UserDetailsState)
    modifies h
    ensures next.userDetails == Some(Profile(details)) && !next.showWelcomeModal
  {
    h.SaveUserDetails(details);
    next := new UserDetailsState(h.local);
    var ok := next.Mount();
  }

  /** After the dialog is skipped, the next session keeps whatever profile was stored and does not show the dialog. */
  method NextSessionAfterSkip(h: UserDetailsState) returns (next: UserDetailsState)
    modifies h
    ensures !next.showWelcomeModal
    ensures StoredDetails(next.local) == StoredDetails(old(h.local))
  {
    h.SkipWelcome();
    next := new UserDetailsState(h.local);
    var ok := next.Mount();
  }

  /** Either handler sets the flag for good: no later mount shows the dialog. */
  lemma FlagSetHidesWelcome(local: map<string, Item>)
    ensures SeenWelcome(local[HasSeenWelcomeKey := OtherJson("true")])
  {
  }
}
