/** The entities of the build store that the Git extension reads: projects, branches and builds. */
module Structure {

  datatype Project = Project(id: int, name: string)

  datatype BranchType = Classic | TemplateDefinition | TemplateInstance

  datatype Branch = Branch(id: int, name: string, project: Project, branchType: BranchType)

  /** Who created an entity, and when (`Signature`, with the time as an abstract instant). */
  datatype Signature = Signature(user: string, time: int)

  datatype Build = Build(branch: Branch, name: string, description: string, signature: Signature)
}
