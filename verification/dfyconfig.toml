# Every Dafny file here is part of the project.
includes = ["**/*.dfy"]
