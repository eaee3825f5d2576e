/** A worked instance of the project-field update: project
    `opensearch-project/206` with a single-select `Roadmap` field, updated from
    labels of the form `Roadmap:<option>`. */
module ProjectFieldScenario {
  import opened Wrappers
  import opened Strings
  import opened Resources
  import opened ProjectFieldUpdate

  /** A resource table with project `opensearch-project/206`, whose
      single-select field `Roadmap` offers `Releases` and `Project Health`. */
  function RoadmapField(): Field {
    Field("field-roadmap", SingleSelect,
          [FieldOption("opt-releases", "Releases"), FieldOption("opt-health", "Project Health")])
  }

  function RoadmapResource(): Resource {
    var project := Project("project-206", map["Roadmap" := RoadmapField()]);
    Resource(map["opensearch-project" := Organization(map[206 := project])])
  }

  /** With the scenario table, label `Roadmap:<option>` sets the `Roadmap`
      field to the option of that name, and issues nothing for any other
      name (`Roadmap:Unknown`, say). */
  lemma RoadmapScenario(resource: Resource, project: string, parse: NumberParser, option: string)
    requires resource == RoadmapResource() && project == "opensearch-project/206"
    requires parse("206") == Some(206)
    requires ':' !in option
    ensures Planned(Invocation(true, resource, Some(Label("Roadmap:" + option)), Params("item-1", "label", project), parse))
         == if option == "Releases" then Some(Mutation("project-206", "item-1", "field-roadmap", "opt-releases"))
            else if option == "Project Health" then Some(Mutation("project-206", "item-1", "field-roadmap", "opt-health"))
            else None
  {
    assert project == "opensearch-project" + "/" + "206";
    assert "Roadmap:" + option == "Roadmap" + ":" + option;
    var table := resource.organizations["opensearch-project"].projects[206];
    assert table.nodeId == "project-206" && table.fields["Roadmap"] == RoadmapField();
    LabelSelectsOption(resource, "opensearch-project", "206", "Roadmap", option, "item-1", parse);
    var options := RoadmapField().options;
    if option == "Releases" {
      assert FirstMatch(options, Some(option)) == Some(0);
    } else if option == "Project Health" {
      assert !Names(options[0], Some(option));
      assert FirstMatch(options, Some(option)) == Some(1);
    } else {
      assert FirstMatch(options, Some(option)) == None;
    }
  }
}
