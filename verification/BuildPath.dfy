/** Where a deployment builds its image, and how a restart decides between reusing and rebuilding it:
    build server selection, the choice of the deployment path, and the restart recursion. */
module BuildPath {
  import opened DeploymentStatus
  import opened RollingUpdate

  datatype BuildPack = DockerImage | DockerCompose | Dockerfile | Static | Nixpacks | Railpack | Unknown

  /** `canBuild` is false for a server whose role is deployments only. */
  datatype Server = Server(id: nat, canBuild: bool)

  datatype Application = Application(
    buildPack: BuildPack,
    inlineDockerfile: bool,
    registryImage: bool,            // a registry image name is set
    buildServerEnabled: bool,
    additionalServers: bool,        // the application has additional servers
    remoteBuildSecrets: bool,       // build-time variables reference remote secrets
    configurationRequiresBuild: bool)

  datatype Team = Team(buildServers: seq<Server>, fallbackEnabled: bool)

  /** The outside world at one fallible action. */
  datatype Answer = Answer(cancel: bool, throws: bool, found: bool, unhealthy: bool, pick: nat)

  const YES := Answer(false, false, true, false, 0)

  /** Behind the script all goes well. */
  function AnswerAt(script: seq<Answer>, i: nat): Answer {
    if i < |script| then script[i] else YES
  }

  function Rest(script: seq<Answer>): seq<Answer> {
    if script == [] then [] else script[1..]
  }

  /** The lookup on the server finds the image, or the one after the pull from the registry does. */
  predicate FindsImage(script: seq<Answer>, registryImage: bool) {
    AnswerAt(script, 0).found || (registryImage && AnswerAt(script, 2).found)
  }

  /** No lookup throws. The errors of the pull are ignored. */
  predicate LooksQuietly(script: seq<Answer>, registryImage: bool) {
    !AnswerAt(script, 0).throws && (AnswerAt(script, 0).found || !registryImage || !AnswerAt(script, 2).throws)
  }

  class DeploymentJob {
    const app: Application
    const team: Team
    const mainServer: Server
    const pullRequest: bool
    const isAdditional: bool
    var server: Server
    var buildServer: Server
    var useBuildServer: bool
    var restartOnly: bool
    var forceRebuild: bool
    var imageFound: bool
    var row: Row
    var script: seq<Answer>
    ghost var builds: seq<Server>        // where builds of an image were started
    ghost var rollouts: seq<Server>      // where rolling updates ran
    ghost var lookups: seq<bool>         // results of the image lookups

    /** The build server rule leaves out applications that deploy a ready image, and Compose applications, which
        always build where they run. */
    ghost predicate Exempt() {
      app.buildPack.DockerImage? || app.buildPack.DockerCompose?
    }

    /** The one case in which a deployments-only server builds: a preview deployment that runs on an additional
        server, which skips the build server selection. Previews are queued for the main server, so this takes a
        promotion of another server to main between the queueing and the start of the job. */
    ghost predicate PreviewOnAdditional() {
      isAdditional && pullRequest && app.registryImage
    }

    ghost predicate MayBuildOn(s: Server) {
      s.canBuild || Exempt() || PreviewOnAdditional()
    }

    /** An additional server of an application that is not Compose runs the image of the main server. */
    ghost predicate NeverBuilds() {
      isAdditional && !pullRequest && !app.buildPack.DockerCompose? && app.registryImage
    }

    ghost predicate Valid()
      reads this
    {
      && (server == mainServer || (useBuildServer && server == buildServer))
      && (buildServer == mainServer || buildServer in team.buildServers)
      && (useBuildServer ==> buildServer in team.buildServers)
      && (forall s :: s in team.buildServers ==> s.canBuild)
      && (forall s :: s in builds ==> MayBuildOn(s))
      && (forall s :: s in rollouts ==> s == mainServer)
      && (NeverBuilds() ==> builds == [])
    }

    /** Selection has settled where a build of this job would run. */
    ghost predicate Selected()
      reads this
    {
      && (NeverBuilds() ==> !useBuildServer && (app.buildPack.DockerCompose? || !forceRebuild))
      && (useBuildServer || mainServer.canBuild || Exempt() || PreviewOnAdditional() || NeverBuilds())
    }

    /** Nothing goes wrong outside from here on. */
    twostate predicate Quiet()
      reads this
    {
      old(script) == [] && !old(row).status.Cancelled?
    }

    method Next() returns (a: Answer)
      modifies `script
      ensures a == AnswerAt(old(script), 0) && script == Rest(old(script))
    {
      if script == [] {
        a := YES;
      } else {
        a, script := script[0], script[1..];
      }
    }

    /** A remote command or database write: a cancelled deployment throws. */
    method Act() returns (ok: bool, a: Answer)
      modifies `script, `row
      ensures a == AnswerAt(old(script), 0) && script == Rest(old(script))
      ensures row == if a.cancel then Cancel(old(row)) else old(row)
      ensures ok <==> !a.throws && !row.status.Cancelled?
      ensures Quiet() ==> ok && a == YES && row == old(row) && script == []
    {
      a := Next();
      if a.cancel {
        row := Cancel(row);
      }
      ok := !a.throws && !row.status.Cancelled?;
    }

    /** A restart may come out of this without a server that can build; it selects again before it
        rebuilds. */
    method SelectBuildServer() returns (ok: bool)
      requires Valid() && server == mainServer && !useBuildServer
      modifies `script, `buildServer, `useBuildServer, `forceRebuild
      ensures Valid()
      ensures ok && (!restartOnly || useBuildServer || NeverBuilds()) ==> Selected()
      ensures isAdditional && app.registryImage ==> ok && !useBuildServer && script == old(script)
    {
      ok := true;
      buildServer := server;
      if isAdditional && app.registryImage {
        if !app.buildPack.DockerCompose? || !server.canBuild {
          forceRebuild := false;
        }
        return;
      }
      var mustBuildElsewhere := !server.canBuild && !(app.buildPack.DockerImage? || app.buildPack.DockerCompose?);
      if !mustBuildElsewhere && !app.buildServerEnabled {
        return;
      }
      if mustBuildElsewhere && !restartOnly && !app.registryImage {
        return false;
      }
      if team.buildServers == [] {
        if mustBuildElsewhere && !restartOnly {
          return false;
        }
        if !team.fallbackEnabled && !restartOnly {
          return false;
        }
        return;
      }
      var a := Next();
      buildServer := team.buildServers[a.pick % |team.buildServers|];
      useBuildServer := true;
    }

    /** Looks for the image on the server; if it is not there, tries to pull it and looks again. */
    method CheckImage() returns (ok: bool)
      requires Valid()
      modifies `script, `row, `imageFound, `lookups
      ensures Valid()
      ensures row == old(row) || row == Cancel(old(row))
      ensures lookups == old(lookups) + [imageFound]
      ensures ok ==> row == old(row) && (imageFound <==> FindsImage(old(script), app.registryImage))
      ensures ok <==> !row.status.Cancelled? && LooksQuietly(old(script), app.registryImage)
    {
      var a;
      ok, a := Act();
      imageFound := a.found;
      if ok && !imageFound && app.registryImage {
        var pulled;
        pulled, a := Act();
        ok := !row.status.Cancelled?;
        if ok {
          ok, a := Act();
          imageFound := a.found;
        }
      }
      lookups := lookups + [imageFound];
    }

    /** What comes before the build (the builder image, the clone) neither throws nor is cancelled. */
    ghost predicate Prepares(script: seq<Answer>, row: Row) {
      var a := AnswerAt(script, 0);
      !a.throws && !(if a.cancel then Cancel(row) else row).status.Cancelled?
    }

    /** Builds the image on the current server, which is the build server when one is in use. */
    method BuildImage() returns (ok: bool)
      requires Valid() && Selected() && !NeverBuilds()
      requires useBuildServer && !Exempt() ==> server == buildServer
      modifies `script, `row, `builds
      ensures Valid()
      ensures row == old(row) || row == Cancel(old(row))
      ensures builds == old(builds) + if Prepares(old(script), old(row)) then [server] else []
      ensures ok ==> Prepares(old(script), old(row))
      ensures Quiet() ==> ok && row == old(row) && script == []
    {
      var a;
      ok, a := Act();
      if ok {
        builds := builds + [server];
        ok, a := Act();
      }
    }

    /** The rolling update runs on the deployment server. An unhealthy container fails the row. */
    method RollOut() returns (ok: bool)
      requires Valid()
      modifies `script, `row, `server, `rollouts
      ensures old(!row.status.Finished?) ==> !row.status.Finished?
      ensures Valid() && server == mainServer
      ensures |rollouts| == |old(rollouts)| + 1
      ensures Quiet() ==> ok && row == old(row) && script == []
    {
      var a;
      if useBuildServer {
        server := mainServer;
      }
      rollouts := rollouts + [server];
      ok, a := Act();
      if ok && a.unhealthy {
        row := Transition(row, Failed).0;
      }
    }

    method CompleteDeployment() returns (ok: bool)
      requires Valid()
      modifies `script, `row
      ensures Valid()
      ensures !ok ==> row == old(row) || row == Cancel(old(row))
    {
      var a;
      ok, a := Act();
      if ok {
        var (after, reply) := Transition(row, Finished);
        row, ok := after, !reply.Refused?;
      }
    }

    method DecideWhatToDo() returns (ok: bool)
      requires Valid() && server == mainServer && !row.status.Finished?
      requires restartOnly || Selected()
      requires restartOnly ==> RestartSelected()
      modifies this
      ensures Valid()
      ensures old(lookups) <= lookups
      ensures (ok || row.status.Finished?) && !app.buildPack.DockerCompose? && !old(restartOnly) ==>
          |rollouts| == |old(rollouts)| + 1
      ensures (ok || row.status.Finished?) && !app.buildPack.DockerCompose? && old(restartOnly) ==>
          RolledOutOnce(old(|lookups|), old(|rollouts|))
      ensures PreviewOnAdditional() && !Exempt() && !old(restartOnly) && !old(useBuildServer) ==>
          builds == old(builds) + if Prepares(old(script), old(row)) then [mainServer] else []
      ensures old(restartOnly) && isAdditional && !app.buildPack.DockerCompose? ==> builds == old(builds)
      decreases restartOnly, 4
    {
      if restartOnly {
        ok := JustRestart();
        return;
      }
      ok := Deploy();
      if ok {
        ok := CompleteDeployment();
      }
    }

    /** A restart keeps what its first selection decided. */
    ghost predicate RestartSelected()
      reads this
    {
      && (useBuildServer ==> Selected())
      && (NeverBuilds() ==> Selected())
    }

    /** The restart that finds its image but has remote build-time secrets reports a rebuild and returns
        without one, so nothing is rolled out. Every other restart rolls out once. */
    ghost predicate RolledOutOnce(lookup: nat, before: nat)
      reads this
    {
      && lookup < |lookups|
      && |rollouts| == before + (if lookups[lookup] && !isAdditional && app.remoteBuildSecrets then 0 else 1)
    }

    method JustRestart() returns (ok: bool)
      requires Valid() && server == mainServer && restartOnly && RestartSelected() && !row.status.Finished?
      modifies this
      ensures Valid()
      ensures old(lookups) <= lookups
      ensures (ok || row.status.Finished?) && !app.buildPack.DockerCompose? ==>
          RolledOutOnce(old(|lookups|), old(|rollouts|))
      ensures isAdditional && !app.buildPack.DockerCompose? ==> builds == old(builds)
      decreases restartOnly, 3
    {
      var originalUseBuildServer := useBuildServer;
      useBuildServer := false;
      var a;
      ok, a := Act();
      if ok {
        ok := CheckImage();
      }
      useBuildServer := originalUseBuildServer;
      if !ok {
        return;
      }
      var skipped;
      ok, skipped := ShouldSkipBuild();
      if ok {
        ok := CompleteDeployment();
      }
    }

    /** True when the existing image was rolled out. A restart that has to rebuild stops being a restart,
        selects a build server if it has none, and deploys. */
    method ShouldSkipBuild() returns (ok: bool, skipped: bool)
      requires Valid() && !row.status.Finished? && lookups != [] && lookups[|lookups| - 1] == imageFound
      requires restartOnly ==> server == mainServer && RestartSelected()
      requires !restartOnly ==> Selected()
      modifies this
      ensures Valid()
      ensures old(lookups) <= lookups
      ensures ok && skipped ==> |rollouts| == |old(rollouts)| + 1
      ensures ok && !skipped && !old(restartOnly) ==>
          && rollouts == old(rollouts) && Selected() && !restartOnly && !NeverBuilds()
          && server == old(server) && useBuildServer == old(useBuildServer) && buildServer == old(buildServer)
      ensures !old(restartOnly) ==> !row.status.Finished?
      ensures (ok || row.status.Finished?) && old(restartOnly) && !app.buildPack.DockerCompose? ==>
          RolledOutOnce(old(|lookups|) - 1, old(|rollouts|))
      ensures isAdditional && !app.buildPack.DockerCompose? ==> builds == old(builds)
      decreases restartOnly, 1
    {
      if imageFound {
        if isAdditional || (!app.remoteBuildSecrets && !app.configurationRequiresBuild) {
          var a;
          ok, a := Act();
          if ok {
            ok := RollOut();
          }
          return ok, true;
        }
        if app.remoteBuildSecrets {
          return true, false;
        }
      } else if isAdditional && !app.buildPack.DockerCompose? {
        return false, false;
      }
      ok, skipped := true, false;
      if restartOnly {
        restartOnly := false;
        if !useBuildServer {
          ok := SelectBuildServer();
          if !ok {
            return;
          }
        }
        ok := DecideWhatToDo();
      }
    }

    method Deploy() returns (ok: bool)
      requires Valid() && server == mainServer && Selected() && !restartOnly && !row.status.Finished?
      modifies this
      ensures old(!row.status.Finished?) ==> !row.status.Finished?
      ensures Valid()
      ensures old(lookups) <= lookups
      ensures ok && !app.buildPack.DockerCompose? ==> |rollouts| == |old(rollouts)| + 1
      ensures PreviewOnAdditional() && !Exempt() && !old(useBuildServer) ==>
          builds == old(builds) + if Prepares(old(script), old(row)) then [mainServer] else []
      decreases restartOnly, 3
    {
      var a;
      if app.buildPack.DockerImage? {
        ok, a := Act();
        if ok {
          ok := RollOut();
        }
      } else if pullRequest {
        if app.buildPack.DockerCompose? {
          ok := DeployCompose();
        } else {
          UseBuildServer();
          ok := BuildAndRollOut();
        }
      } else if app.inlineDockerfile {
        UseBuildServer();
        if isAdditional && app.registryImage {
          // The image of an inline Dockerfile is pulled; a missing image throws.
          ok, a := Act();
          if ok && a.found {
            ok := RollOut();
          } else {
            ok := false;
          }
        } else {
          ok := BuildAndRollOut();
        }
      } else if app.buildPack.DockerCompose? {
        ok := DeployCompose();
      } else if app.buildPack.Unknown? {
        ok := false;
      } else {
        ok := DeployBuildPack();
      }
    }

    /** Dockerfile, static, Nixpacks and Railpack: reuse the image unless a rebuild is forced. */
    method DeployBuildPack() returns (ok: bool)
      requires Valid() && server == mainServer && Selected() && !restartOnly && !row.status.Finished?
      requires !pullRequest && !app.buildPack.DockerCompose?
      modifies this
      ensures old(!row.status.Finished?) ==> !row.status.Finished?
      ensures Valid()
      ensures old(lookups) <= lookups
      ensures ok ==> |rollouts| == |old(rollouts)| + 1
      decreases restartOnly, 2
    {
      var a;
      UseBuildServer();
      ok, a := Act();
      if !ok {
        return;
      }
      if !forceRebuild {
        ok := CheckImage();
        if !ok {
          return;
        }
        var skipped;
        ok, skipped := ShouldSkipBuild();
        if !ok || skipped {
          return;
        }
      }
      ok := BuildAndRollOut();
    }

    /** The build paths run on the build server when one is in use. */
    method UseBuildServer()
      requires Valid()
      modifies `server
      ensures Valid() && server == if useBuildServer then buildServer else old(server)
    {
      if useBuildServer {
        server := buildServer;
      }
    }

    method BuildAndRollOut() returns (ok: bool)
      requires Valid() && Selected() && !NeverBuilds()
      requires useBuildServer && !Exempt() ==> server == buildServer
      modifies `script, `row, `builds, `server, `rollouts
      ensures old(!row.status.Finished?) ==> !row.status.Finished?
      ensures Valid()
      ensures ok ==> |rollouts| == |old(rollouts)| + 1
      ensures builds == old(builds) + if Prepares(old(script), old(row)) then [old(server)] else []
      ensures Quiet() ==> ok
    {
      ok := BuildImage();
      if ok {
        ok := RollOut();
      }
    }

    /** Compose builds on the current server and restarts the services without a rolling update. */
    method DeployCompose() returns (ok: bool)
      requires Valid() && Selected() && app.buildPack.DockerCompose?
      modifies `script, `row, `builds, `server
      ensures old(!row.status.Finished?) ==> !row.status.Finished?
      ensures Valid()
    {
      ok := BuildImage();
      if ok {
        if useBuildServer {
          server := mainServer;
        }
        var a;
        ok, a := Act();
      }
    }

    constructor (app: Application, team: Team, server: Server, pullRequest: bool, isAdditional: bool,
                 restart: bool, force: bool, script: seq<Answer>)
      requires forall s :: s in team.buildServers ==> s.canBuild
      requires isAdditional ==> app.additionalServers
      ensures Valid() && this.app == app && this.team == team && mainServer == server
      ensures this.server == server && this.pullRequest == pullRequest && this.isAdditional == isAdditional
      ensures !useBuildServer && this.script == script && row == Row(InProgress, 0, 0)
      ensures restartOnly == (restart && !app.buildPack.DockerImage? && !app.buildPack.Dockerfile?)
      ensures forceRebuild == force && builds == [] && rollouts == [] && lookups == []
    {
      this.app, this.team, mainServer := app, team, server;
      this.pullRequest, this.isAdditional := pullRequest, isAdditional;
      this.server, buildServer, useBuildServer := server, server, false;
      restartOnly := restart && !app.buildPack.DockerImage? && !app.buildPack.Dockerfile?;
      forceRebuild, imageFound, this.script, row := force, false, script, Row(InProgress, 0, 0);
      builds, rollouts, lookups := [], [], [];
    }

    /** A whole deployment. Images are built only on servers that can build, with the exception of previews
        that were queued before their server became an additional one; an additional server builds nothing;
        rolling updates run on the deployment server; and a deployment that finishes ran exactly one, or none in
        the one case of RolledOutOnce. */
    method Handle()
      requires Valid() && server == mainServer && !useBuildServer
      requires builds == [] && rollouts == [] && lookups == [] && row == Row(InProgress, 0, 0)
      requires isAdditional ==> app.additionalServers
      modifies this
      ensures (exists s :: s in builds && !s.canBuild && !Exempt()) <==>
          && PreviewOnAdditional() && !Exempt() && !old(restartOnly) && !mainServer.canBuild
          && !AnswerAt(old(script), 0).throws && !AnswerAt(old(script), 0).cancel
      ensures PreviewOnAdditional() && !Exempt() ==>
          builds == if !old(restartOnly) && Prepares(old(script), old(row)) then [mainServer] else []
      ensures isAdditional && !pullRequest && !app.buildPack.DockerCompose? ==> builds == []
      ensures forall s :: s in rollouts ==> s == mainServer
      ensures row.status.Finished? && !app.buildPack.DockerCompose? && !old(restartOnly) ==> |rollouts| == 1
      ensures row.status.Finished? && !app.buildPack.DockerCompose? && old(restartOnly) ==> RolledOutOnce(0, 0)
    {
      if !pullRequest && !app.buildPack.DockerCompose? && app.additionalServers && !app.registryImage {
        row := Transition(row, Failed).0;
        return;
      }
      var ok := SelectBuildServer();
      if ok {
        ok := DecideWhatToDo();
      }
      if !ok {
        row := Transition(row, Failed).0;
      }
    }
  }
}
