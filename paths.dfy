/** File-system paths as the call file builds them with `Path(dir) / Path(name)`,
    which is `os.path.join` on two components. */
module Paths {

  /** A component that starts with '/' is absolute. */
  predicate IsAbsolute(name: string) {
    |name| > 0 && name[0] == '/'
  }

  /** The text a relative name is appended to: the directory itself when it is
      empty or already ends in '/', otherwise the directory and one '/'. */
  function DirPrefix(dir: string): string {
    if dir == "" || dir[|dir| - 1] == '/' then dir else dir + "/"
  }

  /** `os.path.join(dir, name)`: an absolute name discards the directory. */
  function Join(dir: string, name: string): (p: string)
    ensures IsAbsolute(name) ==> p == name
    ensures !IsAbsolute(name) ==> dir <= p && |name| <= |p| && p[|p| - |name|..] == name
    ensures !IsAbsolute(name) && dir != "" ==> |p| > |name| && p[|p| - |name| - 1] == '/'
    ensures !IsAbsolute(name) ==>
      |p| == |dir| + |name| + (if dir == "" || dir[|dir| - 1] == '/' then 0 else 1)
  {
    if IsAbsolute(name) then name else DirPrefix(dir) + name
  }

  /** One relative name joined to two directories, neither empty nor ending in
      '/', gives two different paths exactly when the directories differ. */
  lemma JoinSeparatesDirs(d1: string, d2: string, name: string)
    requires !IsAbsolute(name)
    requires d1 != "" && d1[|d1| - 1] != '/'
    requires d2 != "" && d2[|d2| - 1] != '/'
    ensures Join(d1, name) == Join(d2, name) <==> d1 == d2
  {
    if Join(d1, name) == Join(d2, name) {
      var p := Join(d1, name);
      assert |d1| == |d2|;
      assert d1 == p[..|d1|] == d2;
    }
  }
}
