/**
 * The wizard (src/components/BookConfigurator.tsx): the current step, the welcome
 * screen flag and the book configuration, changed by the start, back, next and
 * finish handlers, with `canProceed` gating the next button.
 */
module Configurator {
  import opened Wrappers
  import opened Book
  import opened Calculations
  import FileUpload

  /** The four entries of `steps`: welcome, configuration, upload, preview. */
  const StepCount: int := 4

  const LastStep: int := StepCount - 1

  /**
   * initialConfig; note that `customFormat` starts out undefined. It has no files,
   * so the upload step starts out blocked, and it orders one copy.
   */
  function InitialConfig(): (c: BookConfig)
    ensures c.files == map[] && !c.isProfessionalCover && !CanProceed(2, c)
    ensures c.quantity == 1 && c.pageCount > 0 && c.customFormat.None?
  {
    BookConfig(
    Hardcover, ArtMatt135, 100, A4, None, true, Straight, 1, Matte, map[],
    false, false, false, Some("#ffffff"),
    DesignService(false, Some(""), Some(""), Some("")),
    HardcoverOptions("white", "white", None),
    Some(""))
  }

  /**
   * canProceed: only the upload step can block. In professional mode it needs the
   * professional cover file and the pre-tested confirmation; otherwise it needs the
   * front cover, spine and back cover files.
   */
  function CanProceed(step: int, c: BookConfig): (ok: bool)
    ensures !ok ==> step == 2
    ensures step == 2 && c.isProfessionalCover ==> (ok <==> ProfessionalCover in c.files && c.isPreTested)
    ensures step == 2 && !c.isProfessionalCover ==> (ok <==> FrontCover in c.files && Spine in c.files && BackCover in c.files)
  {
    match step
    case 0 => true
    case 1 => true
    case 2 =>
      if c.isProfessionalCover then ProfessionalCover in c.files && c.isPreTested
      else FrontCover in c.files && Spine in c.files && BackCover in c.files
    case 3 => true
    case _ => true
  }

  class BookConfigurator {
    var currentStep: int
    var config: BookConfig
    var showWelcome: bool

    /** The step is an index into `steps`, and the welcome screen shows exactly at step 0. */
    ghost predicate Valid()
      reads this
    {
      0 <= currentStep <= LastStep && (showWelcome <==> currentStep == 0)
    }

    /** The back and next buttons are rendered only past the welcome screen and from step 1 on. */
    predicate NavigationShown()
      reads this
    {
      !showWelcome && currentStep > 0
    }

    constructor ()
      ensures Valid()
      ensures currentStep == 0 && showWelcome && config == InitialConfig()
    {
      currentStep := 0;
      config := InitialConfig();
      showWelcome := true;
    }

    /** updateConfig: the keys present in `u` overwrite, the rest of the configuration is kept. */
    method UpdateConfig(u: ConfigUpdate)
      requires Valid()
      modifies this
      ensures Valid()
      ensures config == Merge(old(config), u)
      ensures currentStep == old(currentStep) && showWelcome == old(showWelcome)
    {
      config := Merge(config, u);
    }

    /** handleStart: leaves the welcome screen for the configuration step. */
    method HandleStart()
      requires Valid()
      modifies this
      ensures Valid()
      ensures !showWelcome && currentStep == 1 && config == old(config)
    {
      showWelcome := false;
      currentStep := 1;
    }

    /** handleFinish: resets the configuration and returns to the welcome screen. */
    method HandleFinish()
      requires Valid()
      modifies this
      ensures Valid()
      ensures config == InitialConfig() && showWelcome && currentStep == 0
    {
      config := InitialConfig();
      showWelcome := true;
      currentStep := 0;
    }

    /**
     * A click on "back": disabled at step 1, otherwise the step becomes
     * max(1, step - 1); a click on a button that is disabled or not shown does nothing.
     */
    method ClickBack()
      requires Valid()
      modifies this
      ensures Valid()
      ensures config == old(config) && showWelcome == old(showWelcome)
      ensures old(NavigationShown()) && old(currentStep) != 1 ==> currentStep == old(currentStep) - 1
      ensures !(old(NavigationShown()) && old(currentStep) != 1) ==> currentStep == old(currentStep)
      ensures old(currentStep) >= 1 ==> currentStep >= 1
    {
      if NavigationShown() && currentStep != 1 {
        currentStep := if currentStep - 1 > 1 then currentStep - 1 else 1;
      }
    }

    /**
     * A click on "next", enabled when `canProceed` holds: at the last step it
     * finishes, otherwise the step becomes min(3, step + 1).
     */
    method ClickNext()
      requires Valid()
      modifies this
      ensures Valid()
      ensures !(old(NavigationShown()) && CanProceed(old(currentStep), old(config))) ==>
        currentStep == old(currentStep) && config == old(config) && showWelcome == old(showWelcome)
      ensures old(NavigationShown()) && CanProceed(old(currentStep), old(config)) && old(currentStep) == LastStep ==>
        config == InitialConfig() && showWelcome && currentStep == 0
      ensures old(NavigationShown()) && CanProceed(old(currentStep), old(config)) && old(currentStep) < LastStep ==>
        currentStep == old(currentStep) + 1 && config == old(config) && !showWelcome
    {
      if NavigationShown() && CanProceed(currentStep, config) {
        if currentStep == LastStep {
          HandleFinish();
        } else {
          currentStep := if currentStep + 1 < LastStep then currentStep + 1 else LastStep;
        }
      }
    }
  }

  /**
   * The wizard starts with `format` A4 and no `customFormat`; choosing the custom
   * format without entering a size gives a 0 x 0 trim, not the A4 fallback, so the
   * sheet is only the spine plus the wrap allowance.
   */
  lemma CustomWithoutSizeHasNoTrim()
    ensures var d := CalculateDimensions(Merge(InitialConfig(), NoUpdate.(format := Some(Custom))));
      && d.coverWidth == d.spineWidth + 29.0
      && d.coverHeight == 26.0
  {
  }

  /** The initial configuration is the worked A4 hardcover example. */
  lemma InitialDimensions()
    ensures CalculateDimensions(InitialConfig()) == Dimensions(11.8, 460.8, 323.0)
  {
  }

  /**
   * In cover-files mode an accepted combined PDF unblocks the upload step, and
   * deleting any one of its three slots blocks it again.
   */
  lemma CombinedUploadUnblocks(c: BookConfig, slot: Slot)
    requires slot in {FrontCover, Spine, BackCover}
    ensures var c1 := Merge(Merge(c, FileUpload.CoverFilesMode(c.files)), FilesUpdate(FileUpload.CombinedFiles()));
      && CanProceed(2, c1)
      && !CanProceed(2, Merge(c1, FileUpload.HandleFileDelete(c1.files, slot)))
  {
  }
}
