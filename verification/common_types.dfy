/** Value types shared by the action layer and the project form: the editable
    fields of a project listing, a stored project, and JavaScript's notion of
    an optional (possibly `undefined`) string. */
module CommonTypes {

  datatype Option<+T> = None | Some(value: T)

  /** A string that may be `undefined` is truthy when it is defined and not empty. */
  predicate Truthy(s: Option<string>)
  {
    s.Some? && s.value != ""
  }

  /** The six editable fields of a project listing. */
  datatype Field = Image | Title | Description | LiveSiteUrl | GithubUrl | Category

  /** The `ProjectForm` record: what the form edits and what the create and
      update mutations receive as their input. */
  datatype ProjectForm = ProjectForm(
    image: string,
    title: string,
    description: string,
    liveSiteUrl: string,
    githubUrl: string,
    category: string)
  {
    function Get(f: Field): string
    {
      match f
      case Image => image
      case Title => title
      case Description => description
      case LiveSiteUrl => liveSiteUrl
      case GithubUrl => githubUrl
      case Category => category
    }

    /** `{ ...form, [f]: v }`: field `f` becomes `v`, every other field is kept. */
    function With(f: Field, v: string): (r: ProjectForm)
      ensures r.Get(f) == v
      ensures forall g :: g != f ==> r.Get(g) == Get(g)
    {
      match f
      case Image => this.(image := v)
      case Title => this.(title := v)
      case Description => this.(description := v)
      case LiveSiteUrl => this.(liveSiteUrl := v)
      case GithubUrl => this.(githubUrl := v)
      case Category => this.(category := v)
    }
  }

  /** A stored project as the edit page hands it to the form. */
  datatype Project = Project(
    id: string,
    image: string,
    title: string,
    description: string,
    liveSiteUrl: string,
    githubUrl: string,
    category: string)
  {
    function Get(f: Field): string
    {
      match f
      case Image => image
      case Title => title
      case Description => description
      case LiveSiteUrl => liveSiteUrl
      case GithubUrl => githubUrl
      case Category => category
    }
  }
}
