/** `RepositoryInfo` (apps/api/app/models/github_config.py): the coordinates
    of a GitHub repository. After construction, `model_post_init` derives the
    full name and the three URLs from owner and name wherever they were left
    empty. */
module RepositoryInfoModel {
  import opened Wrappers

  /** The fields of a `RepositoryInfo`, as a value. */
  datatype RepoFields = RepoFields(
    owner: string, name: string,
    fullName: Option<string>, url: Option<string>,
    cloneUrl: Option<string>, sshUrl: Option<string>,
    defaultBranch: string)

  /** The declared default of `default_branch`. */
  const DefaultBranch := "main"

  function DefaultFullName(owner: string, name: string): string
  {
    owner + "/" + name
  }

  function DefaultUrl(owner: string, name: string): string
  {
    "https://github.com/" + owner + "/" + name
  }

  function DefaultCloneUrl(owner: string, name: string): string
  {
    "https://github.com/" + owner + "/" + name + ".git"
  }

  function DefaultSshUrl(owner: string, name: string): string
  {
    "git@github.com:" + owner + "/" + name + ".git"
  }

  /** `value if value else default`, as an optional text. */
  function OrDefault(o: Option<string>, default: string): Option<string>
  {
    if Falsy(o) then Some(default) else o
  }

  /** What `model_post_init` leaves in the fields. */
  function PostInit(f: RepoFields): (r: RepoFields)
    ensures r.owner == f.owner && r.name == f.name && r.defaultBranch == f.defaultBranch
    ensures !Falsy(r.fullName) && !Falsy(r.url) && !Falsy(r.cloneUrl) && !Falsy(r.sshUrl)
  {
    f.(fullName := OrDefault(f.fullName, DefaultFullName(f.owner, f.name)),
       url := OrDefault(f.url, DefaultUrl(f.owner, f.name)),
       cloneUrl := OrDefault(f.cloneUrl, DefaultCloneUrl(f.owner, f.name)),
       sshUrl := OrDefault(f.sshUrl, DefaultSshUrl(f.owner, f.name)))
  }

  /** A field that already holds a non-empty text keeps it. */
  lemma PostInitKeepsGivenFields(f: RepoFields)
    ensures !Falsy(f.fullName) ==> PostInit(f).fullName == f.fullName
    ensures !Falsy(f.url) ==> PostInit(f).url == f.url
    ensures !Falsy(f.cloneUrl) ==> PostInit(f).cloneUrl == f.cloneUrl
    ensures !Falsy(f.sshUrl) ==> PostInit(f).sshUrl == f.sshUrl
  {
  }

  /** A field that is `None` or empty gets the value derived from owner and name. */
  lemma PostInitDerivesMissingFields(f: RepoFields)
    ensures Falsy(f.fullName) ==> PostInit(f).fullName == Some(f.owner + "/" + f.name)
    ensures Falsy(f.url) ==> PostInit(f).url == Some("https://github.com/" + f.owner + "/" + f.name)
    ensures Falsy(f.cloneUrl) ==> PostInit(f).cloneUrl == Some("https://github.com/" + f.owner + "/" + f.name + ".git")
    ensures Falsy(f.sshUrl) ==> PostInit(f).sshUrl == Some("git@github.com:" + f.owner + "/" + f.name + ".git")
  {
  }

  /** Running the defaulting a second time changes nothing. */
  lemma PostInitIdempotent(f: RepoFields)
    ensures PostInit(PostInit(f)) == PostInit(f)
  {
  }

  /** `RepositoryInfo(owner=..., name=...)` with every other field left at its default. */
  function FromOwnerAndName(owner: string, name: string, defaultBranch: string): (r: RepoFields)
    ensures r.fullName == Some(owner + "/" + name)
    ensures r.url == Some("https://github.com/" + owner + "/" + name)
    ensures r.cloneUrl == Some("https://github.com/" + owner + "/" + name + ".git")
    ensures r.sshUrl == Some("git@github.com:" + owner + "/" + name + ".git")
    ensures r.defaultBranch == defaultBranch
  {
    PostInit(RepoFields(owner, name, None, None, None, None, defaultBranch))
  }

  /** The pydantic model, whose fields `model_post_init` assigns in place. */
  class RepositoryInfo {
    var owner: string
    var name: string
    var fullName: Option<string>
    var url: Option<string>
    var cloneUrl: Option<string>
    var sshUrl: Option<string>
    var defaultBranch: string

    function Fields(): RepoFields
      reads this
    {
      RepoFields(owner, name, fullName, url, cloneUrl, sshUrl, defaultBranch)
    }

    /** Validation stores the given fields, then pydantic calls `model_post_init`. */
    constructor (owner: string, name: string, fullName: Option<string>, url: Option<string>,
                 cloneUrl: Option<string>, sshUrl: Option<string>, defaultBranch: string)
      ensures Fields() == PostInit(RepoFields(owner, name, fullName, url, cloneUrl, sshUrl, defaultBranch))
    {
      this.owner := owner;
      this.name := name;
      this.fullName := fullName;
      this.url := url;
      this.cloneUrl := cloneUrl;
      this.sshUrl := sshUrl;
      this.defaultBranch := defaultBranch;
      new;
      ModelPostInit();
    }

    method ModelPostInit()
      modifies this
      ensures Fields() == PostInit(old(Fields()))
    {
      if Falsy(fullName) {
        fullName := Some(owner + "/" + name);
      }
      if Falsy(url) {
        url := Some("https://github.com/" + owner + "/" + name);
      }
      if Falsy(cloneUrl) {
        cloneUrl := Some("https://github.com/" + owner + "/" + name + ".git");
      }
      if Falsy(sshUrl) {
        sshUrl := Some("git@github.com:" + owner + "/" + name + ".git");
      }
    }
  }
}
