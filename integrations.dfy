/** The category-based onboarding wizard: (1) pick document categories,
    (2) add files under each picked category, (3) review and confirm,
    (4) done. The set of categories with a file list always equals the set of
    picked categories. */
module Integrations {
  import opened Common

  /** The titles of the six category cards, in display order. */
  const CategoryTitles: seq<string> :=
    ["Service Catalog", "Pricing Sheets", "Product Manuals", "FAQs", "Company Policies", "Other"]

  /** The `uploadedFiles` object: a file list per category title. */
  type FilesByCategory = map<string, seq<File>>

  /** A category has a file list exactly when it is selected. */
  ghost predicate KeysMatch(selected: seq<string>, files: FilesByCategory)
  {
    forall c :: c in files <==> c in selected
  }

  // ---------------------------------------------------------------------------
  // toggleCategory
  // ---------------------------------------------------------------------------

  /** The selection after clicking a card: a selected title is taken out, an
      unselected one is put at the end; every other title keeps its state. */
  function ToggleSelection(selected: seq<string>, title: string): (r: seq<string>)
    ensures title in r <==> title !in selected
    ensures forall c :: c != title ==> (c in r <==> c in selected)
    ensures title !in selected ==> r == selected + [title]
    ensures title in selected ==> r == Without(selected, title)
    ensures NoDuplicates(selected) ==> NoDuplicates(r)
  {
    if title in selected then
      WithoutNoDuplicates(selected, title);
      Without(selected, title)
    else
      selected + [title]
  }

  /** The file lists after the selection became `newSelection` by clicking
      `title`: a deselected title loses its list, a selected title without a
      list gets an empty one, and no other entry changes. */
  function ToggleFiles(files: FilesByCategory, newSelection: seq<string>, title: string): (r: FilesByCategory)
    ensures title in r <==> title in newSelection
    ensures title in r && title !in files ==> r[title] == []
    ensures title in r && title in files ==> r[title] == files[title]
    ensures forall c :: c != title ==> (c in r <==> c in files)
    ensures forall c :: c != title && c in r ==> r[c] == files[c]
  {
    if title !in newSelection then files - {title}
    else if title !in files then files[title := []]
    else files
  }

  /** Toggling keeps the file lists' keys in step with the selection. */
  lemma ToggleKeepsKeys(selected: seq<string>, files: FilesByCategory, title: string)
    requires KeysMatch(selected, files)
    ensures var s := ToggleSelection(selected, title);
      KeysMatch(s, ToggleFiles(files, s, title))
  {
  }

  /** Deselecting a category and selecting it again leaves it with an empty
      file list, whatever it held before. */
  lemma ReselectStartsEmpty(selected: seq<string>, files: FilesByCategory, title: string)
    requires title in selected
    ensures var s1 := ToggleSelection(selected, title);
      var f1 := ToggleFiles(files, s1, title);
      var s2 := ToggleSelection(s1, title);
      var f2 := ToggleFiles(f1, s2, title);
      title in s2 && title in f2 && f2[title] == []
  {
  }

  // ---------------------------------------------------------------------------
  // Step gates
  // ---------------------------------------------------------------------------

  /** `canProceedToUpload`: gates Next on step 1. */
  predicate CanProceedToUpload(selected: seq<string>)
  {
    |selected| > 0
  }

  /** `uploadedFiles[cat]?.length > 0`: a missing list counts as no files. */
  predicate HasFiles(files: FilesByCategory, category: string)
  {
    category in files && |files[category]| > 0
  }

  /** `canProceedToReview`, the `every` over the selection that gates Next on
      step 2: holds exactly when each selected category has at least one
      file (and so holds for an empty selection). */
  function CanProceedToReview(selected: seq<string>, files: FilesByCategory): (r: bool)
    ensures r <==> forall i :: 0 <= i < |selected| ==> HasFiles(files, selected[i])
  {
    selected == [] || (HasFiles(files, selected[0]) && CanProceedToReview(selected[1..], files))
  }

  // ---------------------------------------------------------------------------
  // The component
  // ---------------------------------------------------------------------------

  /** The wizard's component state. `timersPending` counts the completion
      timers that handleProcess has scheduled and that have not fired. */
  class Wizard {
    var currentStep: int
    var selectedCategories: seq<string>
    var uploadedFiles: FilesByCategory
    var isProcessing: bool
    var timersPending: nat

    /** The step stays in 1..4 (counting the step a pending timer will add),
        processing means exactly one timer is pending, and the file lists'
        keys are the selected categories, each picked once from the cards. */
    ghost predicate Valid()
      reads this
      ensures Valid() ==> 1 <= currentStep <= 4
    {
      && 1 <= currentStep
      && currentStep + timersPending <= 4
      && timersPending == (if isProcessing then 1 else 0)
      && NoDuplicates(selectedCategories)
      && (forall c :: c in selectedCategories ==> c in CategoryTitles)
      && KeysMatch(selectedCategories, uploadedFiles)
    }

    constructor ()
      ensures Valid()
      ensures currentStep == 1 && selectedCategories == [] && uploadedFiles == map[]
      ensures !isProcessing && timersPending == 0
    {
      currentStep := 1;
      selectedCategories := [];
      uploadedFiles := map[];
      isProcessing := false;
      timersPending := 0;
    }

    /** Clicking a category card (shown on step 1). */
    method ToggleCategory(title: string)
      requires Valid()
      requires currentStep == 1 && title in CategoryTitles
      modifies this
      ensures Valid()
      ensures selectedCategories == ToggleSelection(old(selectedCategories), title)
      ensures uploadedFiles == ToggleFiles(old(uploadedFiles), selectedCategories, title)
      ensures old(title !in selectedCategories) ==>
        selectedCategories == old(selectedCategories) + [title] &&
        uploadedFiles == old(uploadedFiles)[title := []]
      ensures old(title in selectedCategories) ==>
        title !in selectedCategories && uploadedFiles == old(uploadedFiles) - {title}
      ensures currentStep == old(currentStep) && isProcessing == old(isProcessing)
      ensures timersPending == old(timersPending)
    {
      var newSelection := ToggleSelection(selectedCategories, title);
      var newFiles := uploadedFiles;
      if title !in newSelection {
        newFiles := newFiles - {title};
      } else if title !in newFiles {
        newFiles := newFiles[title := []];
      }
      ToggleKeepsKeys(selectedCategories, uploadedFiles, title);
      uploadedFiles := newFiles;
      selectedCategories := newSelection;
    }

    /** Files dropped or picked under a category's upload area (step 2). They
        go after that category's files, in the order given; no other
        category's list changes. */
    method HandleAddFiles(category: string, files: seq<File>)
      requires Valid()
      requires currentStep == 2 && category in selectedCategories
      modifies this`uploadedFiles
      ensures Valid()
      ensures uploadedFiles == old(uploadedFiles)[category := old(uploadedFiles)[category] + files]
      ensures uploadedFiles.Keys == old(uploadedFiles).Keys
      ensures forall c :: c in uploadedFiles && c != category ==> uploadedFiles[c] == old(uploadedFiles)[c]
    {
      var existing := if category in uploadedFiles then uploadedFiles[category] else [];
      uploadedFiles := uploadedFiles[category := existing + files];
    }

    /** A file's remove button under a category (step 2). Only that
        category's list changes, losing exactly the entries that are this
        file object. */
    method HandleRemoveFile(category: string, file: File)
      requires Valid()
      requires currentStep == 2 && category in selectedCategories
      modifies this`uploadedFiles
      ensures Valid()
      ensures uploadedFiles == old(uploadedFiles)[category := Without(old(uploadedFiles)[category], file)]
      ensures uploadedFiles.Keys == old(uploadedFiles).Keys
      ensures file !in uploadedFiles[category]
      ensures forall c :: c in uploadedFiles && c != category ==> uploadedFiles[c] == old(uploadedFiles)[c]
    {
      uploadedFiles := uploadedFiles[category := Without(uploadedFiles[category], file)];
    }

    /** Next, shown on steps 1 and 2 and enabled by the step's gate. */
    method HandleNext()
      requires Valid()
      requires currentStep < 4 && currentStep != 3
      requires if currentStep == 1 then CanProceedToUpload(selectedCategories)
               else CanProceedToReview(selectedCategories, uploadedFiles)
      modifies this`currentStep
      ensures Valid()
      ensures currentStep == old(currentStep) + 1
    {
      currentStep := currentStep + 1;
    }

    /** Back, shown on steps 1 to 3 and disabled on step 1. It stays enabled
        while processing. */
    method HandleBack()
      requires Valid()
      requires currentStep < 4 && currentStep != 1
      modifies this`currentStep
      ensures Valid()
      ensures currentStep == old(currentStep) - 1
    {
      currentStep := currentStep - 1;
    }

    /** Confirm & Process on step 3, disabled while processing: it only
        schedules the completion timer. */
    method HandleProcess()
      requires Valid()
      requires currentStep == 3 && !isProcessing
      modifies this`isProcessing, this`timersPending
      ensures Valid()
      ensures isProcessing && timersPending == 1
    {
      isProcessing := true;
      timersPending := timersPending + 1;
    }

    /** The completion timer fires: processing ends and the step advances
        by one from wherever the wizard is now. */
    method TimerFires()
      requires Valid()
      requires timersPending > 0
      modifies this`isProcessing, this`timersPending, this`currentStep
      ensures Valid()
      ensures !isProcessing && timersPending == old(timersPending) - 1
      ensures currentStep == old(currentStep) + 1
    {
      isProcessing := false;
      timersPending := timersPending - 1;
      currentStep := currentStep + 1;
    }

    /** "Onboard More Data" on step 4: back to step 1, keeping the selection
        and the file lists. */
    method OnboardMore()
      requires Valid()
      requires currentStep == 4
      modifies this`currentStep
      ensures Valid()
      ensures currentStep == 1
    {
      currentStep := 1;
    }
  }

  /** Back stays enabled while the completion timer is pending, so a user who
      goes back to step 1 and clears the selection is moved on to the upload
      step with nothing selected when the timer fires. */
  method BackWhileProcessingScenario() returns (step: int, selected: seq<string>)
    ensures step == 2 && selected == []
  {
    var w := new Wizard();
    assert CategoryTitles[3] == "FAQs";
    w.ToggleCategory("FAQs");
    assert w.selectedCategories == ["FAQs"] && w.uploadedFiles == map["FAQs" := []];
    w.HandleNext();
    var f := new File("faq.pdf", 1024);
    ghost var before := w.uploadedFiles;
    w.HandleAddFiles("FAQs", [f]);
    assert before["FAQs"] + [f] == [f];
    assert w.uploadedFiles == before["FAQs" := [f]];
    assert w.uploadedFiles == map["FAQs" := [f]];
    assert CanProceedToReview(w.selectedCategories, w.uploadedFiles);
    w.HandleNext();
    w.HandleProcess();
    assert w.currentStep == 3 && w.timersPending == 1;
    w.HandleBack();
    w.HandleBack();
    assert w.currentStep == 1 && w.selectedCategories == ["FAQs"];
    w.ToggleCategory("FAQs");
    assert w.selectedCategories == [] && w.currentStep == 1 && w.timersPending == 1;
    w.TimerFires();
    step, selected := w.currentStep, w.selectedCategories;
  }
}
