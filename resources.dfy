/** The resource lookup table the project-field update consults: organisation
    name -> project number -> project, whose fields are keyed by field name. Only
    the parts the update reads are modelled. */
module Resources {

  /** One choice of a single-select field. */
  datatype FieldOption = FieldOption(id: string, name: string)

  /** A project field: its node id, its type as the project API names it
      (`"SINGLE_SELECT"`, ...) and, for select fields, its options in order. */
  datatype Field = Field(nodeId: string, fieldType: string, options: seq<FieldOption>)

  datatype Project = Project(nodeId: string, fields: map<string, Field>)

  datatype Organization = Organization(projects: map<int, Project>)

  datatype Resource = Resource(organizations: map<string, Organization>)

  const SingleSelect: string := "SINGLE_SELECT"
}
