/** FamilyLoadOptions: how the plugin answers Revit when a family being
    loaded already exists in the project. */
module LoadOptions {

  /** TaskDialogResult: the button a task dialog was closed with
      (`NoneResult` is TaskDialogResult.None). */
  datatype TaskDialogResult =
    | NoneResult | Ok | Cancel | Retry | Yes | No | Close
    | CommandLink1 | CommandLink2 | CommandLink3 | CommandLink4

  /** FamilySource: whose version of a shared family wins. */
  datatype FamilySource = Family | Project

  /** The dialog's default button. */
  const DefaultButton: TaskDialogResult := Cancel

  /** The answer to OnFamilyFound: the return value, the out-parameter, and
      whether the "family already exists" dialog was shown. */
  datatype FamilyFoundAnswer = FamilyFoundAnswer(accept: bool, overwriteParameterValues: bool, dialogShown: bool)

  /** The answer to OnSharedFamilyFound. */
  datatype SharedFamilyAnswer = SharedFamilyAnswer(accept: bool, source: FamilySource, overwriteParameterValues: bool)

  /** The options object; its one flag is fixed at construction. */
  datatype FamilyLoadOptions = FamilyLoadOptions(allowUserInteraction: bool)

  /** OnFamilyFound. `dialogResult` is what the user picks when the dialog is
      shown; it is not consulted otherwise. */
  function OnFamilyFound(options: FamilyLoadOptions, familyInUse: bool, dialogResult: TaskDialogResult): (a: FamilyFoundAnswer)
    ensures a.dialogShown <==> options.allowUserInteraction
    ensures !options.allowUserInteraction ==> a.accept && a.overwriteParameterValues
    ensures options.allowUserInteraction ==>
      && (a.accept <==> dialogResult == CommandLink1 || dialogResult == CommandLink2)
      && (a.overwriteParameterValues <==> dialogResult == CommandLink2)
  {
    if options.allowUserInteraction then
      if dialogResult == CommandLink1 then FamilyFoundAnswer(true, false, true)
      else if dialogResult == CommandLink2 then FamilyFoundAnswer(true, true, true)
      else FamilyFoundAnswer(false, false, true)
    else FamilyFoundAnswer(true, true, false)
  }

  /** Overwriting parameter values is only ever asked for together with
      accepting the load, and whether the family is in use never matters. */
  lemma OverwriteOnlyWhenAccepted(options: FamilyLoadOptions, inUse1: bool, inUse2: bool, dialogResult: TaskDialogResult)
    ensures OnFamilyFound(options, inUse1, dialogResult).overwriteParameterValues ==> OnFamilyFound(options, inUse1, dialogResult).accept
    ensures OnFamilyFound(options, inUse1, dialogResult) == OnFamilyFound(options, inUse2, dialogResult)
  {
  }

  /** Closing the dialog with its default button declines the load. */
  lemma DefaultButtonDeclines(familyInUse: bool)
    ensures OnFamilyFound(FamilyLoadOptions(true), familyInUse, DefaultButton) == FamilyFoundAnswer(false, false, true)
  {
  }

  /** OnSharedFamilyFound: always accept, take the family's version and
      overwrite parameter values. */
  function OnSharedFamilyFound(options: FamilyLoadOptions, familyInUse: bool): (a: SharedFamilyAnswer)
    ensures a.accept && a.source == Family && a.overwriteParameterValues
  {
    SharedFamilyAnswer(true, Family, true)
  }
}
