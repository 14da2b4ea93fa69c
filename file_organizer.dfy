/** The file organiser form: a destination, a mode chosen through
    presets, category and file-type filters, and the organise request
    with its in-progress flag and result view. */
module FileOrganizer {
  import opened Wrappers
  import opened Text
  import opened Seqs
  import opened Models
  import opened FormLists

  const OrganizeModes: seq<string> := ["Category", "Date", "File Type", "Custom"]
  const FlagCategories: seq<string> := ["Explicit", "Suggestive", "Adult", "Violent", "Disturbing"]
  const FileTypeOptions: seq<string> := ["Image", "Video", "Document"]

  const ByDateFolder: string := "/storage/emulated/0/SecureScanner/organized/by-date"
  const ByTypeFolder: string := "/storage/emulated/0/SecureScanner/organized/by-type"

  /** The destination after choosing a preset: "Date" and "File Type"
      bring their own folder, any other mode keeps the one entered. */
  function PresetDestination(mode: string, destination: string): (r: string)
    ensures mode == "Date" ==> r == ByDateFolder
    ensures mode == "File Type" ==> r == ByTypeFolder
    ensures mode != "Date" && mode != "File Type" ==> r == destination
  {
    if mode == "Date" then ByDateFolder
    else if mode == "File Type" then ByTypeFolder
    else destination
  }

  /** The request the Organize button sends. */
  function BuildRequest(destination: string, mode: string, categories: seq<string>,
                        fileTypes: seq<string>, sessionId: Option<int>): (r: OrganizeRequest)
    ensures r.destinationFolder == destination && r.sessionId == sessionId
    ensures |r.filterCategories| == |categories| && |r.filterFileTypes| == |fileTypes|
  {
    OrganizeRequest(destination, RequestLabel(mode), LowerAll(categories), LowerAll(fileTypes), sessionId)
  }

  /** The filters go out lower-cased in selection order, the mode as its
      request label: "File Type" as "file_type". */
  lemma BuildRequestSpec(destination: string, mode: string, categories: seq<string>,
                         fileTypes: seq<string>, sessionId: Option<int>)
    ensures var r := BuildRequest(destination, mode, categories, fileTypes, sessionId);
      (forall i :: 0 <= i < |categories| ==> r.filterCategories[i] == Lower(categories[i]))
      && (forall i :: 0 <= i < |fileTypes| ==> r.filterFileTypes[i] == Lower(fileTypes[i]))
      && (mode == "File Type" ==> r.mode == "file_type")
  {
    FileTypeLabel();
  }

  class OrganizerForm {
    /** The session whose files are organised; None organises all. */
    const sessionId: Option<int>
    var destinationFolder: string
    var selectedMode: string
    var selectedCategories: seq<string>
    var selectedFileTypes: seq<string>
    var isOrganizing: bool
    var result: Option<OrganizeResponse>

    /** The button is pressed only from the form, which is hidden while a
        result is shown; checkbox lists hold no repeats. */
    ghost predicate Valid()
      reads this
    {
      !(isOrganizing && result.Some?)
      && NoDuplicates(selectedCategories) && NoDuplicates(selectedFileTypes)
    }

    constructor (sessionId: Option<int>)
      ensures Valid()
      ensures this.sessionId == sessionId && destinationFolder == "" && selectedMode == "Category"
      ensures selectedCategories == [] && selectedFileTypes == []
      ensures !isOrganizing && result == None
    {
      this.sessionId := sessionId;
      destinationFolder := "";
      selectedMode := "Category";
      selectedCategories := [];
      selectedFileTypes := [];
      isOrganizing := false;
      result := None;
    }

    /** `applyPreset`: the mode is always set; the destination as
        `PresetDestination` says. */
    method ApplyPreset(mode: string)
      requires Valid()
      modifies this
      ensures Valid()
      ensures selectedMode == mode
      ensures destinationFolder == PresetDestination(mode, old(destinationFolder))
      ensures selectedCategories == old(selectedCategories) && selectedFileTypes == old(selectedFileTypes)
      ensures isOrganizing == old(isOrganizing) && result == old(result)
    {
      selectedMode := mode;
      if mode == "Date" {
        destinationFolder := ByDateFolder;
      } else if mode == "File Type" {
        destinationFolder := ByTypeFolder;
      }
    }

    method EditDestination(text: string)
      requires Valid()
      modifies this
      ensures Valid()
      ensures destinationFolder == text && selectedMode == old(selectedMode)
      ensures selectedCategories == old(selectedCategories) && selectedFileTypes == old(selectedFileTypes)
      ensures isOrganizing == old(isOrganizing) && result == old(result)
    {
      destinationFolder := text;
    }

    method ToggleCategory(category: string)
      requires Valid()
      modifies this
      ensures Valid()
      ensures selectedCategories == Toggled(old(selectedCategories), category)
      ensures category in selectedCategories <==> category !in old(selectedCategories)
      ensures destinationFolder == old(destinationFolder) && selectedMode == old(selectedMode)
      ensures selectedFileTypes == old(selectedFileTypes)
      ensures isOrganizing == old(isOrganizing) && result == old(result)
    {
      ToggledSpec(selectedCategories, category);
      if category !in selectedCategories {
        selectedCategories := selectedCategories + [category];
      } else {
        selectedCategories := RemoveFirst(selectedCategories, category);
      }
    }

    method ToggleFileType(fileType: string)
      requires Valid()
      modifies this
      ensures Valid()
      ensures selectedFileTypes == Toggled(old(selectedFileTypes), fileType)
      ensures fileType in selectedFileTypes <==> fileType !in old(selectedFileTypes)
      ensures destinationFolder == old(destinationFolder) && selectedMode == old(selectedMode)
      ensures selectedCategories == old(selectedCategories)
      ensures isOrganizing == old(isOrganizing) && result == old(result)
    {
      ToggledSpec(selectedFileTypes, fileType);
      if fileType !in selectedFileTypes {
        selectedFileTypes := selectedFileTypes + [fileType];
      } else {
        selectedFileTypes := RemoveFirst(selectedFileTypes, fileType);
      }
    }

    /** The Organize button, enabled only while no request is running and
        shown only on the form: the request goes out and the flag is set. */
    method PressOrganize() returns (request: OrganizeRequest)
      requires Valid() && !isOrganizing && result.None?
      modifies this
      ensures Valid()
      ensures isOrganizing && result == None
      ensures request == BuildRequest(destinationFolder, selectedMode, selectedCategories,
                                      selectedFileTypes, sessionId)
      ensures destinationFolder == old(destinationFolder) && selectedMode == old(selectedMode)
      ensures selectedCategories == old(selectedCategories) && selectedFileTypes == old(selectedFileTypes)
    {
      isOrganizing := true;
      request := OrganizeRequest(destinationFolder, RequestLabel(selectedMode),
                                 LowerAll(selectedCategories), LowerAll(selectedFileTypes), sessionId);
    }

    /** The request's answer: the flag drops either way; a response is
        shown, a failure leaves the form (and a message) up. */
    method CompleteOrganize(outcome: Result<OrganizeResponse>)
      requires Valid() && isOrganizing
      modifies this
      ensures Valid()
      ensures !isOrganizing
      ensures outcome.Ok? ==> result == Some(outcome.value)
      ensures outcome.Err? ==> result == None
      ensures destinationFolder == old(destinationFolder) && selectedMode == old(selectedMode)
      ensures selectedCategories == old(selectedCategories) && selectedFileTypes == old(selectedFileTypes)
    {
      match outcome
      case Ok(response) =>
        result := Some(response);
        isOrganizing := false;
      case Err(_) =>
        isOrganizing := false;
    }

    /** "Organize More": back to the form, its fields kept. */
    method OrganizeMore()
      requires Valid()
      modifies this
      ensures Valid()
      ensures result == None && isOrganizing == old(isOrganizing)
      ensures destinationFolder == old(destinationFolder) && selectedMode == old(selectedMode)
      ensures selectedCategories == old(selectedCategories) && selectedFileTypes == old(selectedFileTypes)
    {
      result := None;
    }
  }
}
