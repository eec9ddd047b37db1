/** The client's shared enumerations (offices, priorities, roles), its copy
    of the upload extension list and of the size limit, cross-checked
    against the server's lists. */
module Constants {
  import opened Js
  import Upload
  import IncidentModel

  /** One entry of a select list: the value sent to the server and the text shown. */
  datatype SelectOption = SelectOption(value: string, shown: string)

  const OfficeOptions: seq<SelectOption> := [
    SelectOption("Malaga", "Málaga"),
    SelectOption("El Palo", "El Palo"),
    SelectOption("Fuengirola", "Fuengirola")]

  const PriorityOptions: seq<SelectOption> := [
    SelectOption("Baja", "Baja"),
    SelectOption("Media", "Media"),
    SelectOption("Alta", "Alta")]

  const RoleOptions: seq<SelectOption> := [
    SelectOption("user", "Usuario"),
    SelectOption("admin", "Administrador"),
    SelectOption("tecnico", "Técnico")]

  const AllowedFileExtensions: seq<string> :=
    ["jpg", "jpeg", "png", "gif", "mp4", "pdf", "doc", "docx", "xls", "xlsx", "txt", "zip", "rar"]

  const MaxFileSize: nat := 10 * 1024 * 1024

  /** The values of a select list, in order. */
  function Values(options: seq<SelectOption>): (vs: seq<string>)
    ensures |vs| == |options|
    ensures forall i :: 0 <= i < |options| ==> vs[i] == options[i].value
  {
    if options == [] then [] else [options[0].value] + Values(options[1..])
  }

  lemma OfficeValues()
    ensures Values(OfficeOptions) == ["Malaga", "El Palo", "Fuengirola"]
  {
  }

  lemma RoleValues()
    ensures Values(RoleOptions) == ["user", "admin", "tecnico"]
  {
  }

  /** The client offers the priorities the schema accepts, in another order. */
  lemma PrioritiesMatchSchema()
    ensures Values(PriorityOptions) == ["Baja", "Media", "Alta"]
    ensures (set v | v in Values(PriorityOptions)) == (set v | v in IncidentModel.PriorityValues)
    ensures Values(PriorityOptions) != IncidentModel.PriorityValues
  {
    var vs := Values(PriorityOptions);
    assert vs[0] == "Baja" && IncidentModel.PriorityValues[0] == "Alta";
  }

  /** The client's extension list is the server filter's list, entry by entry. */
  lemma ExtensionsMatchServer()
    ensures AllowedFileExtensions == Upload.AllowedExtensions
    ensures |AllowedFileExtensions| == 13
  {
  }

  lemma SizeLimitMatchesServer()
    ensures MaxFileSize == Upload.MaxFileSize == 10485760
    ensures forall size: nat :: Upload.WithinSizeLimit(size) <==> size <= MaxFileSize
  {
  }

  /** No select list repeats a value. */
  lemma OptionValuesDistinct()
    ensures NoDuplicates(Values(OfficeOptions))
    ensures NoDuplicates(Values(PriorityOptions))
    ensures NoDuplicates(Values(RoleOptions))
  {
    OfficeValues();
    RoleValues();
    PrioritiesMatchSchema();
  }
}
